/** The JSON that `src/catalog.rs` writes by hand, one record to a line, against
    a reader for RFC 8259. */
module Catalog {
  import opened Options
  import opened TextForms

  /** What the record renderers build: objects with fixed keys, arrays, strings,
      numbers, flags, and null for what is absent. */
  datatype Json =
    | Null
    | Str(s: string)
    | Num(n: nat)
    | Flag(b: bool)
    | Arr(items: Items)
    | Obj(fields: Fields)

  datatype Items = INil | ICons(head: Json, tail: Items)

  datatype Fields = FNil | FCons(key: string, value: Json, rest: Fields)

  // ── Printing ─────────────────────────────────────────────────────

  function Print(j: Json): string {
    match j
    case Null => "null"
    case Str(s) => Quoted(s, false)
    case Num(n) => Digits(n)
    case Flag(b) => if b then "true" else "false"
    case Arr(items) => "[" + PrintItems(items) + "]"
    case Obj(fields) => "{" + PrintFields(fields) + "}"
  }

  function PrintItems(items: Items): string {
    match items
    case INil => ""
    case ICons(h, t) => Print(h) + (if t.INil? then "" else "," + PrintItems(t))
  }

  function PrintKv(key: string, value: string): string {
    "\"" + key + "\":" + value
  }

  function PrintFields(fields: Fields): string {
    match fields
    case FNil => ""
    case FCons(k, v, r) => PrintKv(k, Print(v)) + (if r.FNil? then "" else "," + PrintFields(r))
  }

  /** `json_string`. */
  method JsonString(s: string) returns (out: string)
    ensures out == Quoted(s, false)
  {
    hide Escape;
    out := "\"";
    assert s[0..] == s;
    for i := 0 to |s|
      invariant out + Escaped(s[i..], false) == "\"" + Escaped(s, false)
    {
      assert s[i..][1..] == s[i + 1..];
      AppendAssoc(out, Escape(s[i], false), Escaped(s[i + 1..], false));
      out := out + Escape(s[i], false);
    }
    assert s[|s|..] == "" && out + "" == out;
    out := out + "\"";
  }

  /** `write_kv`: the key is written as it is. */
  method WriteKv(out: string, key: string, value: string) returns (out': string)
    ensures out' == out + PrintKv(key, value)
  {
    out' := out + "\"";
    out' := out' + key;
    out' := out' + "\":";
    out' := out' + value;
  }

  /** A record or a part of one, as the renderers put it together. */
  method Render(j: Json) returns (out: string)
    ensures out == Print(j)
    decreases j
  {
    match j
    case Null => out := "null";
    case Str(s) => out := JsonString(s);
    case Num(n) => out := Digits(n);
    case Flag(b) => out := if b then "true" else "false";
    case Arr(items) => out := RenderItems(items);
    case Obj(fields) => out := RenderFields(fields);
  }

  method RenderItems(items: Items) returns (out: string)
    ensures out == "[" + PrintItems(items) + "]"
    decreases items
  {
    out := "[";
    var rest := items;
    while rest.ICons?
      invariant out + PrintItems(rest) == "[" + PrintItems(items)
      invariant rest == items || rest < items
      decreases rest
    {
      var s := Render(rest.head);
      ItemsStep(out, rest.head, rest.tail);
      out := out + s;
      if rest.tail.ICons? {
        out := out + ",";
      }
      rest := rest.tail;
    }
    assert out + "" == out;
    out := out + "]";
  }

  lemma ItemsStep(out: string, h: Json, t: Items)
    ensures out + PrintItems(ICons(h, t)) == (if t.INil? then out + Print(h) else out + Print(h) + ",") + PrintItems(t)
  {
    AppendAssoc(out, Print(h), "," + PrintItems(t));
    AppendAssoc(out + Print(h), ",", PrintItems(t));
    assert out + Print(h) + "" == out + (Print(h) + "");
  }

  method RenderFields(fields: Fields) returns (out: string)
    ensures out == "{" + PrintFields(fields) + "}"
    decreases fields
  {
    out := "{";
    var rest := fields;
    while rest.FCons?
      invariant out + PrintFields(rest) == "{" + PrintFields(fields)
      invariant rest == fields || rest < fields
      decreases rest
    {
      var s := Render(rest.value);
      FieldsStep(out, rest.key, rest.value, rest.rest);
      out := WriteKv(out, rest.key, s);
      if rest.rest.FCons? {
        out := out + ",";
      }
      rest := rest.rest;
    }
    assert out + "" == out;
    out := out + "}";
  }

  lemma FieldsStep(out: string, k: string, v: Json, r: Fields)
    ensures out + PrintFields(FCons(k, v, r)) ==
        (if r.FNil? then out + PrintKv(k, Print(v)) else out + PrintKv(k, Print(v)) + ",") + PrintFields(r)
  {
    var p := PrintKv(k, Print(v));
    hide PrintKv;
    AppendAssoc(out, p, "," + PrintFields(r));
    AppendAssoc(out + p, ",", PrintFields(r));
    assert out + p + "" == out + (p + "");
  }

  // ── Reading, by RFC 8259 ─────────────────────────────────────────

  predicate IsSpace(c: char) {
    c == ' ' || c == '\t' || c == '\n' || c == '\r'
  }

  /** Insignificant white space, section 2 of RFC 8259. */
  function Skip(s: string): (r: string)
    ensures |r| <= |s|
  {
    if s != "" && IsSpace(s[0]) then Skip(s[1..]) else s
  }

  /** A code unit of a `\u` escape, behind the `u`. */
  function ReadUnit(s: string): Read<nat> {
    if |s| < 4 then Failed
    else
      match (FromHex(s[0]), FromHex(s[1]), FromHex(s[2]), FromHex(s[3]))
      case (Some(a), Some(b), Some(c), Some(d)) => Read(((a * 16 + b) * 16 + c) * 16 + d, s[4..])
      case _ => Failed
  }

  /** An escape sequence, behind the backslash; two units make a character outside
      the basic plane. Section 7 of RFC 8259. */
  function ReadEscape(s: string): Read<char> {
    if s == "" then Failed
    else if s[0] == '"' || s[0] == '\\' || s[0] == '/' then Read(s[0], s[1..])
    else if s[0] == 'b' then Read(8 as char, s[1..])
    else if s[0] == 'f' then Read(12 as char, s[1..])
    else if s[0] == 'n' then Read('\n', s[1..])
    else if s[0] == 'r' then Read('\r', s[1..])
    else if s[0] == 't' then Read('\t', s[1..])
    else if s[0] == 'u' then
      match ReadUnit(s[1..])
      case Failed => Failed
      case Read(n, r) =>
        if n < 0xD800 || 0xE000 <= n < 0x1_0000 then Read(n as char, r)
        else if n >= 0xDC00 || |r| < 2 || r[0] != '\\' || r[1] != 'u' then Failed
        else
          match ReadUnit(r[2..])
          case Failed => Failed
          case Read(m, r1) =>
            if 0xDC00 <= m < 0xE000 then Read((0x1_0000 + (n - 0xD800) * 0x400 + (m - 0xDC00)) as char, r1) else Failed
    else Failed
  }

  /** The rest of a string, up to its closing quote. */
  function ReadString(s: string): Read<string>
    decreases |s|
  {
    if s == "" then Failed
    else if s[0] == '"' then Read("", s[1..])
    else if s[0] == '\\' then
      (match ReadEscape(s[1..])
       case Failed => Failed
       case Read(c, r) =>
         if |r| >= |s| then Failed
         else match ReadString(r) case Failed => Failed case Read(t, r1) => Read([c] + t, r1))
    else if s[0] as int < 0x20 then Failed
    else match ReadString(s[1..]) case Failed => Failed case Read(t, r1) => Read([s[0]] + t, r1)
  }

  predicate Leading(d: string) {
    |d| > 1 && d[0] == '0'
  }

  /** A value, sections 3 to 7 of RFC 8259; of numbers the naturals, without leading zeros. */
  function Parse(s: string): Read<Json>
    decreases |s|, 1
  {
    var t := Skip(s);
    if t == "" then Failed
    else if t[0] == '"' then match ReadString(t[1..]) case Failed => Failed case Read(x, r) => Read(Str(x), r)
    else if "null" <= t then Read(Null, t[4..])
    else if "true" <= t then Read(Flag(true), t[4..])
    else if "false" <= t then Read(Flag(false), t[5..])
    else if '0' <= t[0] <= '9' then
      var d := ReadDigits(t);
      if Leading(d.0) then Failed else Read(Num(Number(d.0)), d.1)
    else if t[0] == '[' then
      var u := Skip(t[1..]);
      if u != "" && u[0] == ']' then Read(Arr(INil), u[1..])
      else match ParseItems(t[1..]) case Failed => Failed case Read(x, r) => Read(Arr(x), r)
    else if t[0] == '{' then
      var u := Skip(t[1..]);
      if u != "" && u[0] == '}' then Read(Obj(FNil), u[1..])
      else match ParseFields(t[1..]) case Failed => Failed case Read(x, r) => Read(Obj(x), r)
    else Failed
  }

  /** Values separated by commas, up to the closing bracket. */
  function ParseItems(s: string): Read<Items>
    decreases |s|, 2
  {
    match Parse(s)
    case Failed => Failed
    case Read(j, r) =>
      var t := Skip(r);
      if t == "" || |t| > |s| then Failed
      else if t[0] == ']' then Read(ICons(j, INil), t[1..])
      else if t[0] == ',' then match ParseItems(t[1..]) case Failed => Failed case Read(x, r1) => Read(ICons(j, x), r1)
      else Failed
  }

  /** Members separated by commas, up to the closing brace. */
  function ParseFields(s: string): Read<Fields>
    decreases |s|, 2
  {
    var t := Skip(s);
    if t == "" || t[0] != '"' then Failed
    else
      match ReadString(t[1..])
      case Failed => Failed
      case Read(k, r) =>
        var u := Skip(r);
        if u == "" || u[0] != ':' || |u| > |s| then Failed
        else
          match Parse(u[1..])
          case Failed => Failed
          case Read(j, r1) =>
            var w := Skip(r1);
            if w == "" || |w| > |s| then Failed
            else if w[0] == '}' then Read(FCons(k, j, FNil), w[1..])
            else if w[0] == ',' then match ParseFields(w[1..]) case Failed => Failed case Read(x, r2) =>
                Read(FCons(k, j, x), r2)
            else Failed
  }

  // ── Round trip ───────────────────────────────────────────────────

  /** Keys that are written as they are: no quote, backslash or control character. */
  predicate PlainKey(k: string) {
    forall i :: 0 <= i < |k| ==> k[i] != '"' && k[i] != '\\' && k[i] as int >= 0x20
  }

  predicate PlainKeys(j: Json) {
    match j
    case Arr(items) => PlainItems(items)
    case Obj(fields) => PlainFields(fields)
    case _ => true
  }

  predicate PlainItems(items: Items) {
    match items case INil => true case ICons(h, t) => PlainKeys(h) && PlainItems(t)
  }

  predicate PlainFields(fields: Fields) {
    match fields case FNil => true case FCons(k, v, r) => PlainKey(k) && PlainKeys(v) && PlainFields(r)
  }

  lemma ReadEscaped(c: char, rest: string)
    ensures ReadString(Escape(c, false) + rest) == match ReadString(rest) case Failed => Failed case Read(t, r) =>
        Read([c] + t, r)
  {
    var s := Escape(c, false) + rest;
    if Escape(c, false) == [c] {
      assert s[1..] == rest;
    } else if |Escape(c, false)| == 2 {
      assert s[1..][1..] == rest;
    } else {
      var n := c as int;
      var tail := s[1..];
      HexBack(n / 16, false);
      HexBack(n % 16, false);
      assert tail[1..][4..] == rest;
      assert ReadUnit(tail[1..]) == Read(n, rest);
      assert ReadEscape(tail) == Read(c, rest);
    }
  }

  lemma {:induction false} ReadQuoted(s: string, rest: string)
    ensures ReadString(Escaped(s, false) + "\"" + rest) == Read(s, rest)
    decreases |s|
  {
    if s == "" {
      assert ("" + "\"" + rest)[1..] == rest;
    } else {
      ReadQuoted(s[1..], rest);
      ReadEscaped(s[0], Escaped(s[1..], false) + "\"" + rest);
      assert Escape(s[0], false) + (Escaped(s[1..], false) + "\"" + rest) == Escaped(s, false) + "\"" + rest;
      assert [s[0]] + s[1..] == s;
    }
  }

  lemma {:induction false} KeyReads(k: string, rest: string)
    requires PlainKey(k)
    ensures ReadString(k + ("\"" + rest)) == Read(k, rest)
    decreases |k|
  {
    if k == "" {
      assert "" + ("\"" + rest) == "\"" + rest;
      assert ("\"" + rest)[1..] == rest;
    } else {
      KeyReads(k[1..], rest);
      assert (k + ("\"" + rest))[1..] == k[1..] + ("\"" + rest);
      assert [k[0]] + k[1..] == k;
    }
  }

  lemma {:induction false} NoLeadingZero(n: nat)
    ensures Digits(n)[0] == '0' <==> n == 0
    ensures !Leading(Digits(n))
  {
    if n >= 10 {
      NoLeadingZero(n / 10);
    }
  }

  /** What may follow a value: not a digit. */
  predicate Follows(rest: string) {
    rest == "" || !('0' <= rest[0] <= '9')
  }

  /** The first character of a value; none starts with white space or a bracket that closes. */
  lemma Starts(j: Json, rest: string)
    ensures var s := Print(j) + rest;
      s != "" && Skip(s) == s && s[0] != ']' && s[0] != '}' && |Print(j)| > 0
      && (j.Str? ==> s[0] == '"') && (j.Num? ==> '0' <= s[0] <= '9')
      && (j.Arr? ==> s[0] == '[') && (j.Obj? ==> s[0] == '{')
      && (j.Flag? ==> s[0] == (if j.b then 't' else 'f')) && (j.Null? ==> s[0] == 'n')
  {
  }

  /** Reading what was printed gives back the record, with its keys, strings and nesting. */
  lemma {:induction false} ParsePrint(j: Json, rest: string)
    requires PlainKeys(j) && Follows(rest)
    ensures Parse(Print(j) + rest) == Read(j, rest)
    decreases j, 1
  {
    hide Parse, Quoted, Digits, PrintItems, PrintFields;
    match j
    case Null => NullReads(rest);
    case Str(x) => StrReads(x, rest);
    case Num(n) => NumReads(n, rest);
    case Flag(b) => FlagReads(b, rest);
    case Arr(items) => ArrReads(items, rest);
    case Obj(fields) => ObjReads(fields, rest);
  }

  lemma StrReads(x: string, rest: string)
    ensures Parse(Quoted(x, false) + rest) == Read(Str(x), rest)
  {
    hide Escaped, ReadString, ParseItems, ParseFields, ReadDigits;
    var s := Quoted(x, false) + rest;
    assert s[0] == '"' && s[1..] == Escaped(x, false) + "\"" + rest;
    ReadQuoted(x, rest);
  }

  lemma NumReads(n: nat, rest: string)
    requires Follows(rest)
    ensures Parse(Digits(n) + rest) == Read(Num(n), rest)
  {
    hide Digits, ReadString, ParseItems, ParseFields, ReadDigits, Number;
    DigitsRead(Digits(n), rest);
    NumberDigits(n);
    NoLeadingZero(n);
    NotWord(Digits(n) + rest);
  }

  lemma NotWord(s: string)
    requires s != "" && s[0] != 't' && s[0] != 'f' && s[0] != 'n'
    ensures !("true" <= s) && !("false" <= s) && !("null" <= s)
  {
  }

  lemma NullReads(rest: string)
    ensures Parse("null" + rest) == Read(Null, rest)
  {
    var s := "null" + rest;
    assert s[4..] == rest && "null" <= s;
  }

  lemma FlagReads(b: bool, rest: string)
    ensures Parse((if b then "true" else "false") + rest) == Read(Flag(b), rest)
  {
    if b {
      var s := "true" + rest;
      assert s[4..] == rest && "true" <= s && s[0] != 'n';
    } else {
      var s := "false" + rest;
      assert s[5..] == rest && "false" <= s && s[0] != 't' && s[0] != 'n';
    }
  }

  /** A bracket, what it holds, and what follows. */
  lemma Bracketed(open: char, x: string, close: char, rest: string)
    ensures [open] + x + [close] + rest == [open] + (x + ([close] + rest))
    ensures ([open] + x + [close] + rest)[1..] == x + ([close] + rest)
  {
    AppendAssoc([open] + x, [close], rest);
    AppendAssoc([open], x, [close] + rest);
  }

  /** The members from the second one on, and what closes them. */
  lemma More(first: string, more: string, close: string)
    ensures first + (if more == "" then "" else "," + more) + close
      == first + (if more == "" then close else "," + (more + close))
  {
    AppendAssoc(first, if more == "" then "" else "," + more, close);
    AppendAssoc(",", more, close);
    assert "" + close == close;
  }

  lemma SomeText(items: Items, fields: Fields)
    ensures PrintItems(items) == "" <==> items.INil?
    ensures PrintFields(fields) == "" <==> fields.FNil?
  {
    if items.ICons? {
      Starts(items.head, "");
    }
  }

  lemma Second(c: char, x: string)
    ensures ([c] + x)[1..] == x && (!IsSpace(c) ==> Skip([c] + x) == [c] + x)
  {
  }

  lemma {:induction false} ArrReads(items: Items, rest: string)
    requires PlainItems(items)
    ensures Parse("[" + PrintItems(items) + "]" + rest) == Read(Arr(items), rest)
    decreases items, 3
  {
    hide Print, PrintFields, ParseFields, ReadString, ReadDigits, Digits, Quoted, PlainKeys;
    var x := PrintItems(items);
    var s := "[" + x + "]" + rest;
    NotWord(s);
    Bracketed('[', x, ']', rest);
    Second(']', rest);
    if items.INil? {
      assert x + ("]" + rest) == "]" + rest;
    } else {
      ItemsRead(items, rest);
      ItemsStart(items, "]" + rest);
    }
  }

  lemma ItemsStart(items: Items, rest: string)
    requires items.ICons?
    ensures var s := PrintItems(items) + rest; s != "" && Skip(s) == s && s[0] != ']'
  {
    hide Print;
    var t := if items.tail.INil? then "" else "," + PrintItems(items.tail);
    Starts(items.head, t + rest);
    AppendAssoc(Print(items.head), t, rest);
  }

  lemma {:induction false} ItemsRead(items: Items, rest: string)
    requires PlainItems(items) && items.ICons?
    ensures ParseItems(PrintItems(items) + ("]" + rest)) == Read(items, rest)
    decreases items, 2
  {
    hide Print, PrintFields, Parse, PlainKeys;
    var h, t := Print(items.head), PrintItems(items.tail);
    SomeText(items.tail, FNil);
    More(h, t, "]" + rest);
    Second(']', rest);
    if items.tail.INil? {
      ParsePrint(items.head, "]" + rest);
    } else {
      var more := t + ("]" + rest);
      ParsePrint(items.head, "," + more);
      Second(',', more);
      ItemsRead(items.tail, rest);
    }
  }

  lemma {:induction false} ObjReads(fields: Fields, rest: string)
    requires PlainFields(fields)
    ensures Parse("{" + PrintFields(fields) + "}" + rest) == Read(Obj(fields), rest)
    decreases fields, 3
  {
    hide Print, PrintItems, ParseItems, ReadString, ReadDigits, Digits, Quoted, PlainKeys;
    var x := PrintFields(fields);
    var s := "{" + x + "}" + rest;
    NotWord(s);
    Bracketed('{', x, '}', rest);
    Second('}', rest);
    if fields.FNil? {
      assert x + ("}" + rest) == "}" + rest;
    } else {
      FieldsRead(fields, rest);
      FieldsText(fields, rest);
    }
  }

  /** An object's members as text: the first key in its quotes, and then the value. */
  lemma FieldsText(fields: Fields, rest: string)
    requires fields.FCons?
    ensures var more := if fields.rest.FNil? then "}" + rest else "," + (PrintFields(fields.rest) + ("}" + rest));
      var s := PrintFields(fields) + ("}" + rest);
      s == "\"" + (fields.key + ("\"" + (":" + (Print(fields.value) + more))))
      && Skip(s) == s && s[0] == '"' && s[1..] == fields.key + ("\"" + (":" + (Print(fields.value) + more)))
  {
    hide Print, PrintKv, PrintFields;
    var kv, r := PrintKv(fields.key, Print(fields.value)), PrintFields(fields.rest);
    var more := if fields.rest.FNil? then "}" + rest else "," + (r + ("}" + rest));
    SomeText(INil, fields.rest);
    FieldsUnfold(fields);
    More(kv, r, "}" + rest);
    KvText(fields.key, Print(fields.value), more);
    Second('"', fields.key + ("\"" + (":" + (Print(fields.value) + more))));
  }

  lemma FieldsUnfold(fields: Fields)
    requires fields.FCons?
    ensures PrintFields(fields)
      == PrintKv(fields.key, Print(fields.value)) + (if fields.rest.FNil? then "" else "," + PrintFields(fields.rest))
  {
  }

  lemma KvText(k: string, v: string, more: string)
    ensures PrintKv(k, v) + more == "\"" + (k + ("\"" + (":" + (v + more))))
  {
    var w := v + more;
    AppendAssoc("\"" + k + "\":", v, more);
    AppendAssoc("\"" + k, "\":", w);
    AppendAssoc("\"", k, "\":" + w);
    AppendAssoc("\"", ":", w);
    assert "\"" + ":" == "\":";
  }

  lemma {:induction false} FieldsRead(fields: Fields, rest: string)
    requires PlainFields(fields) && fields.FCons?
    ensures ParseFields(PrintFields(fields) + ("}" + rest)) == Read(fields, rest)
    decreases fields, 2
  {
    hide Print, PrintFields, Parse, ReadString, Skip, PlainKeys, PlainKey;
    var end := "}" + rest;
    var next := PrintFields(fields.rest) + end;
    var more := if fields.rest.FNil? then end else "," + next;
    var value := Print(fields.value) + more;
    FieldsText(fields, rest);
    KeyReads(fields.key, ":" + value);
    Second(':', value);
    ParsePrint(fields.value, more);
    Second('}', rest);
    Second(',', next);
    if fields.rest.FCons? {
      FieldsRead(fields.rest, rest);
    }
  }

  // ── Lines ────────────────────────────────────────────────────────

  predicate OneLine(s: string) {
    forall i :: 0 <= i < |s| ==> s[i] != '\n'
  }

  lemma {:induction false} EscapedOneLine(s: string)
    ensures OneLine(Escaped(s, false))
  {
    if s != "" {
      EscapedOneLine(s[1..]);
    }
  }

  /** No record has a raw newline, whatever its texts contain. */
  lemma {:induction false} PrintOneLine(j: Json)
    requires PlainKeys(j)
    ensures OneLine(Print(j))
    decreases j
  {
    match j
    case Null =>
    case Str(s) => EscapedOneLine(s);
    case Num(_) =>
    case Flag(_) =>
    case Arr(items) => ItemsOneLine(items);
    case Obj(fields) => FieldsOneLine(fields);
  }

  lemma {:induction false} ItemsOneLine(items: Items)
    requires PlainItems(items)
    ensures OneLine(PrintItems(items))
    decreases items
  {
    if items.ICons? {
      PrintOneLine(items.head);
      ItemsOneLine(items.tail);
    }
  }

  lemma {:induction false} FieldsOneLine(fields: Fields)
    requires PlainFields(fields)
    ensures OneLine(PrintFields(fields))
    decreases fields
  {
    if fields.FCons? {
      PrintOneLine(fields.value);
      FieldsOneLine(fields.rest);
    }
  }

  function Lines(records: seq<Json>): string {
    if records == [] then "" else Print(records[0]) + "\n" + Lines(records[1..])
  }

  /** The catalog: one record to a line, by `push_line`. */
  method Emit(records: seq<Json>) returns (out: string)
    ensures out == Lines(records)
  {
    out := "";
    assert records[0..] == records;
    for i := 0 to |records|
      invariant out + Lines(records[i..]) == Lines(records)
    {
      var line := Render(records[i]);
      assert records[i..][1..] == records[i + 1..];
      AppendAssoc(out, line + "\n", Lines(records[i + 1..]));
      out := out + (line + "\n");
    }
    assert records[|records|..] == [];
  }

  /** The text before the first newline, and what follows it. */
  function FirstLine(s: string): (string, string)
    requires exists i :: 0 <= i < |s| && s[i] == '\n'
  {
    if s[0] == '\n' then ("", s[1..])
    else
      var r := (assert exists i :: 0 <= i < |s[1..]| && s[1..][i] == '\n' by {
                  var i :| 0 <= i < |s| && s[i] == '\n';
                  assert s[1..][i - 1] == '\n';
                }
                FirstLine(s[1..]));
      ([s[0]] + r.0, r.1)
  }

  /** Each line of a text read as a record; none if a line is no record. */
  function ReadLines(s: string): Option<seq<Json>>
    decreases |s|
  {
    if s == "" then Some([])
    else if forall i :: 0 <= i < |s| ==> s[i] != '\n' then None
    else
      var l := FirstLine(s);
      match Parse(l.0)
      case Failed => None
      case Read(j, r) =>
        if r != "" || |l.1| >= |s| then None
        else match ReadLines(l.1) case None => None case Some(rest) => Some([j] + rest)
  }

  lemma {:induction false} FirstLineIs(line: string, rest: string)
    requires OneLine(line)
    ensures (line + "\n" + rest)[|line|] == '\n' && FirstLine(line + "\n" + rest) == (line, rest)
    decreases |line|
  {
    var s := line + "\n" + rest;
    assert s[|line|] == '\n';
    if line == "" {
      assert s[1..] == rest;
    } else {
      FirstLineIs(line[1..], rest);
      assert s[1..] == line[1..] + "\n" + rest;
      assert [line[0]] + line[1..] == line;
    }
  }

  /** Splitting the catalog at newlines and reading each line gives back exactly
      the records. */
  lemma {:induction false} LinesReadBack(records: seq<Json>)
    requires forall i :: 0 <= i < |records| ==> PlainKeys(records[i])
    ensures ReadLines(Lines(records)) == Some(records)
    decreases |records|
  {
    hide Parse, Print, PlainKeys, FirstLine;
    if records != [] {
      var line := Print(records[0]);
      var rest := Lines(records[1..]);
      PrintOneLine(records[0]);
      FirstLineIs(line, rest);
      ParsePrint(records[0], "");
      assert line + "" == line;
      LinesReadBack(records[1..]);
      assert [records[0]] + records[1..] == records;
    }
  }
}
