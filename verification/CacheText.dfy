/** How cache keys and cache metadata are written down, in `src/build_cache.rs`:
    the length-prefixed key encoding and the TOML text of an entry. */
module CacheText {
  import opened Options
  import opened TextForms

  datatype CacheKey = CacheKey(compilerVersion: string, packageName: string, packageVersion: string,
                               edition: string, profile: string, targetTriple: string)

  /** Metadata of an entry; its directory is given by where it is read. */
  datatype CacheEntry = CacheEntry(key: CacheKey, contentHash: string, writtenAt: nat)

  // ── Key encoding ─────────────────────────────────────────────────

  type Byte = b: int | 0 <= b < 256

  type Bytes = seq<Byte>

  /** The fields of a key in UTF-8. */
  datatype RawKey = RawKey(compilerVersion: Bytes, packageName: Bytes, packageVersion: Bytes, edition: Bytes,
          profile: Bytes, targetTriple: Bytes)

  /** The fields in the order in which they are encoded. */
  function Fields(k: RawKey): seq<Bytes> {
    [k.packageName, k.compilerVersion, k.packageVersion, k.edition, k.profile, k.targetTriple]
  }

  const U32 := 0x1_0000_0000

  /** A length as a big-endian u32; a longer one is cut off. */
  function Prefix(n: nat): (p: Bytes)
    ensures |p| == 4
  {
    var m := n % U32;
    [m / 0x100_0000, m / 0x1_0000 % 256, m / 256 % 256, m % 256]
  }

  function Length(p: Bytes): nat
    requires |p| >= 4
  {
    var a: int, b: int, c: int, d: int := p[0], p[1], p[2], p[3];
    ((a * 256 + b) * 256 + c) * 256 + d
  }

  lemma CutLength(n: nat, rest: Bytes)
    ensures Length(Prefix(n) + rest) == n % 0x1_0000_0000
  {
    var m := n % U32;
    var a, b, c := m / 256, m / 0x1_0000, m / 0x100_0000;
    assert a / 256 == b && b / 256 == c;
    assert m == 256 * a + m % 256 && a == 256 * b + a % 256 && b == 256 * c + b % 256;
  }

  lemma LengthPrefix(n: nat, rest: Bytes)
    requires n < U32
    ensures Length(Prefix(n) + rest) == n
  {
    CutLength(n, rest);
  }

  function Encoded(fields: seq<Bytes>): Bytes {
    if fields == [] then [] else Encoded(fields[..|fields| - 1]) + Prefix(|fields[|fields| - 1]|) + fields[|fields| - 1]
  }

  /** `canonical_bytes`. */
  method CanonicalBytes(key: RawKey) returns (out: Bytes)
    ensures out == Encoded([key.packageName, key.compilerVersion, key.packageVersion, key.edition, key.profile,
                            key.targetTriple]) == Encoded(Fields(key))
  {
    out := [];
    var fields := Fields(key);
    for i := 0 to |fields|
      invariant out == Encoded(fields[..i])
    {
      assert fields[..i + 1][..i] == fields[..i];
      out := out + Prefix(|fields[i]|);
      out := out + fields[i];
    }
    assert fields[..|fields|] == fields;
  }

  /** Reads `n` fields back. */
  function Decode(bytes: Bytes, n: nat): Option<seq<Bytes>> {
    if n == 0 then (if bytes == [] then Some([]) else None)
    else if |bytes| < 4 || |bytes| < 4 + Length(bytes) then None
    else
      var k := 4 + Length(bytes);
      match Decode(bytes[k..], n - 1)
      case None => None
      case Some(rest) => Some([bytes[4..k]] + rest)
  }

  /** Short enough for their length prefixes. */
  predicate Short(fields: seq<Bytes>) {
    forall i :: 0 <= i < |fields| ==> |fields[i]| < U32
  }

  lemma {:induction false} EncodedFront(fields: seq<Bytes>)
    requires fields != []
    ensures Encoded(fields) == Prefix(|fields[0]|) + fields[0] + Encoded(fields[1..])
    decreases |fields|
  {
    var front := fields[..|fields| - 1];
    var last := fields[|fields| - 1];
    if front == [] {
      assert fields[1..] == [];
      assert [] + Prefix(|last|) + last == Prefix(|last|) + last + [];
    } else {
      EncodedFront(front);
      assert front[1..] == fields[1..][..|fields| - 2];
      assert Encoded(fields[1..]) == Encoded(front[1..]) + Prefix(|last|) + last;
    }
  }

  /** The encoding can be undone, whatever bytes the fields contain. */
  lemma {:induction false} DecodeEncoded(fields: seq<Bytes>)
    requires Short(fields)
    ensures Decode(Encoded(fields), |fields|) == Some(fields)
    decreases |fields|
  {
    if fields != [] {
      EncodedFront(fields);
      DecodeEncoded(fields[1..]);
      DecodeOne(fields[0], Encoded(fields[1..]), |fields| - 1);
      assert [fields[0]] + fields[1..] == fields;
    }
  }

  lemma DecodeOne(field: Bytes, rest: Bytes, n: nat)
    requires |field| < U32
    ensures Decode(Prefix(|field|) + field + rest, n + 1) == match Decode(rest, n) case None => None case Some(fs) =>
        Some([field] + fs)
  {
    var bytes := Prefix(|field|) + field + rest;
    LengthPrefix(|field|, field + rest);
    hide Prefix, Length;
    assert bytes == Prefix(|field|) + (field + rest);
    assert bytes[4..4 + |field|] == field && bytes[4 + |field|..] == rest;
  }

  /** So different keys have different encodings. */
  lemma EncodingInjective(a: RawKey, b: RawKey)
    requires Short(Fields(a)) && Short(Fields(b)) && Encoded(Fields(a)) == Encoded(Fields(b))
    ensures a == b
  {
    DecodeEncoded(Fields(a));
    DecodeEncoded(Fields(b));
    assert Fields(a) == Fields(b);
    assert forall i :: 0 <= i < 6 ==> Fields(a)[i] == Fields(b)[i];
    assert a.packageName == Fields(a)[0] && b.packageName == Fields(b)[0];
    assert a.compilerVersion == Fields(a)[1] && b.compilerVersion == Fields(b)[1];
    assert a.packageVersion == Fields(a)[2] && b.packageVersion == Fields(b)[2];
    assert a.edition == Fields(a)[3] && b.edition == Fields(b)[3];
    assert a.profile == Fields(a)[4] && b.profile == Fields(b)[4];
    assert a.targetTriple == Fields(a)[5] && b.targetTriple == Fields(b)[5];
  }

  // ── TOML strings ─────────────────────────────────────────────────

  /** `toml_string`. */
  method TomlString(s: string) returns (out: string)
    ensures out == Quoted(s, true)
  {
    hide Escape;
    out := "\"";
    assert s[0..] == s;
    for i := 0 to |s|
      invariant out + Escaped(s[i..], true) == "\"" + Escaped(s, true)
    {
      assert s[i..][1..] == s[i + 1..];
      AppendAssoc(out, Escape(s[i], true), Escaped(s[i + 1..], true));
      out := out + Escape(s[i], true);
    }
    assert s[|s|..] == "" && out + "" == out;
    out := out + "\"";
  }

  /** The character of an escape sequence, behind the backslash. Four-digit
      escapes stand for themselves; eight-digit ones are not written here. */
  function ReadEscape(s: string): Read<char> {
    if s == "" then Failed
    else
      match s[0]
      case '\\' => Read('\\', s[1..])
      case '"' => Read('"', s[1..])
      case 'n' => Read('\n', s[1..])
      case 'r' => Read('\r', s[1..])
      case 't' => Read('\t', s[1..])
      case 'b' => Read(8 as char, s[1..])
      case 'f' => Read(12 as char, s[1..])
      case 'u' =>
        if |s| < 5 then Failed
        else
          (match (FromHex(s[1]), FromHex(s[2]), FromHex(s[3]), FromHex(s[4]))
           case (Some(a), Some(b), Some(c), Some(d)) =>
             var n := ((a * 16 + b) * 16 + c) * 16 + d;
             if n < 0xD800 || 0xE000 <= n < 0x1_0000 then Read(n as char, s[5..]) else Failed
           case _ => Failed)
      case _ => Failed
  }

  /** Characters a basic string may not contain unescaped, by the TOML specification. */
  predicate MustEscape(c: char) {
    (c as int < 0x20 && c != '\t') || c as int == 0x7F
  }

  /** The rest of a basic string, up to its closing quote. */
  function ReadBasic(s: string): Read<string>
    decreases |s|
  {
    if s == "" then Failed
    else if s[0] == '"' then Read("", s[1..])
    else if s[0] == '\\' then
      (match ReadEscape(s[1..])
       case Failed => Failed
       case Read(c, rest) =>
         if |rest| >= |s| then Failed
         else match ReadBasic(rest) case Failed => Failed case Read(t, r) => Read([c] + t, r))
    else if MustEscape(s[0]) then Failed
    else match ReadBasic(s[1..]) case Failed => Failed case Read(t, r) => Read([s[0]] + t, r)
  }

  lemma ReadEscaped(c: char, rest: string)
    requires c as int != 0x7F
    ensures ReadBasic(Escape(c, true) + rest) == match ReadBasic(rest) case Failed => Failed case Read(t, r) =>
        Read([c] + t, r)
  {
    var s := Escape(c, true) + rest;
    if Escape(c, true) == [c] {
      assert s[1..] == rest;
    } else if |Escape(c, true)| == 2 {
      assert s[1..][1..] == rest;
    } else {
      var n := c as int;
      var tail := s[1..];
      assert tail[5..] == rest;
      assert tail[0] == 'u' && tail[1] == '0' && tail[2] == '0' && tail[3] == Hex(n / 16, true) &&
          tail[4] == Hex(n % 16, true);
      HexBack(n / 16, true);
      HexBack(n % 16, true);
      assert ReadEscape(tail) == Read(n as char, rest);
    }
  }

  lemma {:induction false} ReadQuoted(s: string, rest: string)
    requires forall i :: 0 <= i < |s| ==> s[i] as int != 0x7F
    ensures ReadBasic(Escaped(s, true) + "\"" + rest) == Read(s, rest)
    decreases |s|
  {
    hide Escape, ReadEscape;
    if s == "" {
      assert ("" + "\"" + rest)[1..] == rest;
    } else {
      ReadQuoted(s[1..], rest);
      ReadEscaped(s[0], Escaped(s[1..], true) + "\"" + rest);
      AppendAssoc(Escape(s[0], true), Escaped(s[1..], true), "\"");
      AppendAssoc(Escape(s[0], true), Escaped(s[1..], true) + "\"", rest);
      assert [s[0]] + s[1..] == s;
    }
  }

  lemma {:induction false} ReadDelete(s: string, rest: string, i: nat)
    requires i < |s| && s[i] as int == 0x7F
    ensures ReadBasic(Escaped(s, true) + "\"" + rest).Failed?
    decreases |s|
  {
    var tail := Escaped(s[1..], true) + "\"" + rest;
    assert Escape(s[0], true) + tail == Escaped(s, true) + "\"" + rest;
    if s[0] as int == 0x7F {
      assert Escape(s[0], true) == [s[0]];
      assert MustEscape(s[0]);
    } else {
      ReadDelete(s[1..], rest, i - 1);
      ReadEscaped(s[0], tail);
    }
  }

  /** A basic-string reader gives the text back exactly if it has no U+007F. */
  lemma QuotedReadsBack(s: string, rest: string)
    ensures (Quoted(s, true) + rest)[0] == '"'
    ensures ReadBasic((Quoted(s, true) + rest)[1..]) == Read(s, rest) <==> forall i :: 0 <= i < |s| ==>
        s[i] as int != 0x7F
  {
    assert (Quoted(s, true) + rest)[1..] == Escaped(s, true) + "\"" + rest;
    if i :| 0 <= i < |s| && s[i] as int == 0x7F {
      ReadDelete(s, rest, i);
    } else {
      ReadQuoted(s, rest);
    }
  }

  // ── Numbers ──────────────────────────────────────────────────────

  const I64 := 0x8000_0000_0000_0000

  function ReadInteger(s: string): Read<nat> {
    var r := ReadDigits(s);
    if r.0 == "" || Number(r.0) >= I64 then Failed else Read(Number(r.0), r.1)
  }

  /** A written number is read back exactly if it fits. */
  lemma IntegerReadsBack(n: nat, rest: string)
    requires rest == "" || !('0' <= rest[0] <= '9')
    ensures ReadInteger(Digits(n) + rest) == (if n < I64 then Read(n, rest) else Failed)
  {
    DigitsRead(Digits(n), rest);
    NumberDigits(n);
  }

  // ── Entry metadata ───────────────────────────────────────────────

  datatype Value = Str(s: string) | Int(n: nat)

  const SCHEMA_VERSION := 1

  function Line(name: string, v: Value): string {
    name + " = " + (match v case Str(s) => Quoted(s, true) case Int(n) => Digits(n)) + "\n"
  }

  function Table(entry: CacheEntry): seq<(string, Value)> {
    [("schema_version", Int(SCHEMA_VERSION)),
     ("compiler_version", Str(entry.key.compilerVersion)),
     ("package_name", Str(entry.key.packageName)),
     ("package_version", Str(entry.key.packageVersion)),
     ("edition", Str(entry.key.edition)),
     ("profile", Str(entry.key.profile)),
     ("target_triple", Str(entry.key.targetTriple)),
     ("content_hash", Str(entry.contentHash)),
     ("written_at_epoch_seconds", Int(entry.writtenAt))]
  }

  function Lines(t: seq<(string, Value)>): string {
    if t == [] then "" else Line(t[0].0, t[0].1) + Lines(t[1..])
  }

  /** The lines of the metadata. */
  function EntryLines(e: CacheEntry): seq<string> {
    [Setting("schema_version", "1"),
     Setting("compiler_version", Quoted(e.key.compilerVersion, true)),
     Setting("package_name", Quoted(e.key.packageName, true)),
     Setting("package_version", Quoted(e.key.packageVersion, true)),
     Setting("edition", Quoted(e.key.edition, true)),
     Setting("profile", Quoted(e.key.profile, true)),
     Setting("target_triple", Quoted(e.key.targetTriple, true)),
     Setting("content_hash", Quoted(e.contentHash, true)),
     Setting("written_at_epoch_seconds", Digits(e.writtenAt))]
  }

  function Setting(name: string, value: string): string {
    name + " = " + value + "\n"
  }

  function Concat(lines: seq<string>): string {
    if lines == [] then "" else lines[0] + Concat(lines[1..])
  }

  lemma {:induction false} LinesAre(t: seq<(string, Value)>, lines: seq<string>)
    requires |t| == |lines| && forall i :: 0 <= i < |t| ==> Line(t[i].0, t[i].1) == lines[i]
    ensures Lines(t) == Concat(lines)
    decreases |t|
  {
    if t != [] {
      LinesAre(t[1..], lines[1..]);
    }
  }

  lemma TextIs(e: CacheEntry)
    ensures Lines(Table(e)) == Concat(EntryLines(e))
  {
    hide Lines, Concat, Quoted;
    assert Digits(1) == "1";
    LinesAre(Table(e), EntryLines(e));
  }

  /** `render_entry_metadata`. */
  method RenderEntry(entry: CacheEntry) returns (out: string)
    ensures out == Concat(EntryLines(entry)) == Lines(Table(entry))
  {
    hide EntryLines, Concat;
    out := "";
    var t := Table(entry);
    assert t[0..] == t;
    for i := 0 to |t|
      invariant out + Lines(t[i..]) == Lines(t)
    {
      assert t[i..][1..] == t[i + 1..];
      var v: string;
      match t[i].1 {
        case Str(s) => v := TomlString(s);
        case Int(n) => v := Digits(n);
      }
      assert out + (Line(t[i].0, t[i].1) + Lines(t[i + 1..])) == out + Line(t[i].0, t[i].1) + Lines(t[i + 1..]);
      out := out + (t[i].0 + " = " + v + "\n");
    }
    assert t[|t|..] == [];
    TextIs(entry);
  }

  predicate KeyChar(c: char) {
    'a' <= c <= 'z' || c == '_'
  }

  /** A bare key, here of small letters and underscores. */
  function ReadKey(s: string): (r: (string, string))
    ensures r.0 + r.1 == s
  {
    if s == "" || !KeyChar(s[0]) then ("", s)
    else
      var r := ReadKey(s[1..]);
      ([s[0]] + r.0, r.1)
  }

  function ReadValue(s: string): Read<Value> {
    if s != "" && s[0] == '"' then
      match ReadBasic(s[1..]) case Failed => Failed case Read(t, r) => Read(Str(t), r)
    else
      match ReadInteger(s) case Failed => Failed case Read(n, r) => Read(Int(n), r)
  }

  /** One `key = value` line. */
  function ReadLine(s: string): Read<(string, Value)> {
    var k := ReadKey(s);
    if k.0 == "" || !(" = " <= k.1) then Failed
    else
      match ReadValue(k.1[3..])
      case Failed => Failed
      case Read(v, r) => if r == "" || r[0] != '\n' then Failed else Read((k.0, v), r[1..])
  }

  /** A table of such lines; a key may come once. */
  function ReadTable(s: string, sofar: map<string, Value>): Option<map<string, Value>>
    decreases |s|
  {
    if s == "" then Some(sofar)
    else
      match ReadLine(s)
      case Failed => None
      case Read(l, r) => if |r| >= |s| || l.0 in sofar then None else ReadTable(r, sofar[l.0 := l.1])
  }

  function StrAt(t: map<string, Value>, k: string): Option<string> {
    if k in t && t[k].Str? then Some(t[k].s) else None
  }

  function IntAt(t: map<string, Value>, k: string): Option<nat> {
    if k in t && t[k].Int? then Some(t[k].n) else None
  }

  /** `parse_entry_metadata`; a missing field, a field of the wrong type and
      another schema version are errors. */
  function ParseEntry(text: string): Option<CacheEntry> {
    match ReadTable(text, map[])
    case None => None
    case Some(t) =>
      if IntAt(t, "schema_version") != Some(SCHEMA_VERSION) then None
      else
        match (StrAt(t, "compiler_version"), StrAt(t, "package_name"), StrAt(t, "package_version"), StrAt(t, "edition"),
               StrAt(t, "profile"), StrAt(t, "target_triple"), StrAt(t, "content_hash"),
                   IntAt(t, "written_at_epoch_seconds"))
        case (Some(a), Some(b), Some(c), Some(d), Some(e), Some(f), Some(g), Some(h)) =>
          Some(CacheEntry(CacheKey(a, b, c, d, e, f), g, h))
        case _ => None
  }

  predicate Plain(s: string) {
    forall i :: 0 <= i < |s| ==> s[i] as int != 0x7F
  }

  predicate Writable(v: Value) {
    match v case Str(s) => Plain(s) case Int(n) => n < I64
  }

  predicate IsKey(s: string) {
    s != "" && forall i :: 0 <= i < |s| ==> KeyChar(s[i])
  }

  lemma {:induction false} KeyReads(k: string, rest: string)
    requires (forall i :: 0 <= i < |k| ==> KeyChar(k[i])) && rest != "" && !KeyChar(rest[0])
    ensures ReadKey(k + rest) == (k, rest)
    decreases |k|
  {
    if k == "" {
      assert k + rest == rest;
    } else {
      assert (k + rest)[1..] == k[1..] + rest && [k[0]] + k[1..] == k;
      KeyReads(k[1..], rest);
    }
  }

  /** The text of a value. */
  function Shown(v: Value): string {
    match v case Str(s) => Quoted(s, true) case Int(n) => Digits(n)
  }

  lemma ValueReads(v: Value, rest: string)
    requires rest != "" && rest[0] == '\n'
    ensures ReadValue(Shown(v) + rest) == if Writable(v) then Read(v, rest) else Failed
  {
    match v
    case Str(s) => StrReads(s, rest);
    case Int(n) => IntReads(n, rest);
  }

  lemma StrReads(s: string, rest: string)
    ensures ReadValue(Quoted(s, true) + rest) == if Plain(s) then Read(Str(s), rest) else Failed
  {
    hide Escaped, ReadBasic, ReadInteger;
    var t := Quoted(s, true) + rest;
    assert t[0] == '"' && t[1..] == Escaped(s, true) + "\"" + rest;
    if Plain(s) {
      ReadQuoted(s, rest);
    } else {
      var i :| 0 <= i < |s| && s[i] as int == 0x7F;
      ReadDelete(s, rest, i);
    }
  }

  lemma IntReads(n: nat, rest: string)
    requires rest != "" && rest[0] == '\n'
    ensures ReadValue(Digits(n) + rest) == if n < I64 then Read(Int(n), rest) else Failed
  {
    hide Digits, ReadBasic, ReadInteger;
    IntegerReadsBack(n, rest);
    assert (Digits(n) + rest)[0] == Digits(n)[0];
  }

  lemma LineParts(k: string, v: Value)
    ensures Line(k, v) == k + " = " + Shown(v) + "\n"
  {
  }

  lemma KeyIs(k: string)
    requires IsKey(k)
    ensures k != "" && forall i :: 0 <= i < |k| ==> KeyChar(k[i])
  {
  }

  lemma LineText(k: string, v: string, rest: string)
    ensures k + " = " + v + "\n" + rest == k + (" = " + (v + ("\n" + rest)))
  {
    AppendAssoc(k + " = " + v, "\n", rest);
    AppendAssoc(k + " = ", v, "\n" + rest);
    AppendAssoc(k, " = ", v + ("\n" + rest));
  }

  lemma Behind(front: string, rest: string)
    ensures front <= front + rest && (front + rest)[|front|..] == rest
  {
  }

  lemma LineReads(k: string, v: Value, rest: string)
    requires IsKey(k)
    ensures ReadLine(Line(k, v) + rest) == if Writable(v) then Read((k, v), rest) else Failed
  {
    hide Escaped, Digits, ReadBasic, ReadInteger, ReadKey, ReadValue, IsKey, Shown, Writable;
    LineParts(k, v);
    KeyIs(k);
    var value := Shown(v) + ("\n" + rest);
    LineText(k, Shown(v), rest);
    KeyReads(k, " = " + value);
    Behind(" = ", value);
    ValueReads(v, "\n" + rest);
    Behind("\n", rest);
  }

  function AsMap(t: seq<(string, Value)>): map<string, Value> {
    if t == [] then map[] else AsMap(t[..|t| - 1])[t[|t| - 1].0 := t[|t| - 1].1]
  }

  predicate Fine(t: seq<(string, Value)>) {
    && (forall i :: 0 <= i < |t| ==> IsKey(t[i].0))
    && (forall i, j :: 0 <= i < j < |t| ==> t[i].0 != t[j].0)
  }

  lemma {:induction false} KeysOf(t: seq<(string, Value)>)
    ensures forall k :: k in AsMap(t) ==> exists i :: 0 <= i < |t| && t[i].0 == k
  {
    if t != [] {
      KeysOf(t[..|t| - 1]);
    }
  }

  lemma {:induction false} TableReads(t: seq<(string, Value)>, i: nat)
    requires Fine(t) && i <= |t| && forall j :: 0 <= j < |t| ==> Writable(t[j].1)
    ensures ReadTable(Lines(t[i..]), AsMap(t[..i])) == Some(AsMap(t))
    decreases |t| - i
  {
    if i == |t| {
      assert t[..i] == t;
    } else {
      var rest := Lines(t[i + 1..]);
      assert t[i..][1..] == t[i + 1..];
      LineReads(t[i].0, t[i].1, rest);
      KeysOf(t[..i]);
      assert t[..i + 1][..i] == t[..i];
      TableReads(t, i + 1);
    }
  }

  lemma {:induction false} TableFails(t: seq<(string, Value)>, i: nat, sofar: map<string, Value>)
    requires Fine(t) && i <= |t| && exists j :: i <= j < |t| && !Writable(t[j].1)
    ensures ReadTable(Lines(t[i..]), sofar).None?
    decreases |t| - i
  {
    assert t[i..][1..] == t[i + 1..];
    LineReads(t[i].0, t[i].1, Lines(t[i + 1..]));
    if Writable(t[i].1) && t[i].0 !in sofar {
      TableFails(t, i + 1, sofar[t[i].0 := t[i].1]);
    }
  }

  /** All texts without U+007F and a time stamp below 2^63. */
  predicate WritableEntry(e: CacheEntry) {
    && Plain(e.key.compilerVersion) && Plain(e.key.packageName) && Plain(e.key.packageVersion) && Plain(e.key.edition)
    && Plain(e.key.profile) && Plain(e.key.targetTriple) && Plain(e.contentHash) && e.writtenAt < I64
  }

  lemma NamesDiffer(e: CacheEntry)
    ensures forall i, j :: 0 <= i < j < 9 ==> Table(e)[i].0 != Table(e)[j].0
  {
    var t := Table(e);
    assert |t[0].0| == 14 && |t[1].0| == 16 && |t[2].0| == 12 && |t[3].0| == 15 && |t[4].0| == 7 && |t[5].0| == 7;
    assert |t[6].0| == 13 && |t[7].0| == 12 && |t[8].0| == 24;
    assert t[4].0[0] == 'e' && t[5].0[0] == 'p' && t[2].0[0] == 'p' && t[7].0[0] == 'c';
  }

  lemma NamesAreKeys(e: CacheEntry)
    ensures forall i :: 0 <= i < 9 ==> IsKey(Table(e)[i].0)
  {
    assert IsKey("schema_version") && IsKey("compiler_version") && IsKey("package_name");
    assert IsKey("package_version") && IsKey("edition") && IsKey("profile");
    assert IsKey("target_triple") && IsKey("content_hash") && IsKey("written_at_epoch_seconds");
  }

  lemma TableFine(e: CacheEntry)
    ensures Fine(Table(e)) && (WritableEntry(e) <==> forall j :: 0 <= j < 9 ==> Writable(Table(e)[j].1))
  {
    hide Plain, IsKey;
    NamesDiffer(e);
    NamesAreKeys(e);
    var t := Table(e);
    assert Writable(t[0].1);
    assert Writable(t[1].1) == Plain(e.key.compilerVersion) && Writable(t[2].1) == Plain(e.key.packageName);
    assert Writable(t[3].1) == Plain(e.key.packageVersion) && Writable(t[4].1) == Plain(e.key.edition);
    assert Writable(t[5].1) == Plain(e.key.profile) && Writable(t[6].1) == Plain(e.key.targetTriple);
    assert Writable(t[7].1) == Plain(e.contentHash) && Writable(t[8].1) == (e.writtenAt < I64);
  }

  lemma {:induction false} Lookup(t: seq<(string, Value)>, i: nat)
    requires Fine(t) && i < |t|
    ensures t[i].0 in AsMap(t) && AsMap(t)[t[i].0] == t[i].1
    decreases |t|
  {
    var front := t[..|t| - 1];
    if i < |t| - 1 {
      Lookup(front, i);
      assert front[i] == t[i] && t[i].0 != t[|t| - 1].0;
    }
  }

  /** Metadata that was written is read back as the same entry, exactly if its
      texts have no U+007F and its time stamp fits; otherwise it is malformed. */
  lemma EntryReadsBack(e: CacheEntry)
    ensures ParseEntry(Lines(Table(e))) == if WritableEntry(e) then Some(e) else None
  {
    hide Table, Fine, Writable, WritableEntry, ReadTable, Lines, AsMap;
    var t := Table(e);
    TableFine(e);
    NineLines(e);
    assert t[0..] == t;
    if WritableEntry(e) {
      TableReads(t, 0);
      assert t[..0] == [];
      NoLines();
      FieldsBack(e);
    } else {
      TableFails(t, 0, map[]);
    }
  }

  /** With another value on line `j`, whatever the entry: a value of the other type and any
      schema version but 1 are malformed. */
  lemma ChangedLine(e: CacheEntry, j: nat, v: Value)
    requires j < 9
    ensures v.Int? != (j in {0, 8}) || (j == 0 && v != Int(1)) ==>
        ParseEntry(Lines(Table(e)[j := (Table(e)[j].0, v)])) == None
  {
    hide Table, Fine, Writable, ReadTable, ParseEntry, Lines, AsMap;
    TableFine(e);
    NineLines(e);
    var t := Table(e)[j := (Table(e)[j].0, v)];
    assert Fine(t) by { ChangedFine(Table(e), j, v); }
    ReadsOrFails(t);
    Lookup(t, j);
    if ParseEntry(Lines(t)).Some? {
      ParsedHas(Lines(t), e, j);
    }
  }

  /** What was parsed has every line, with a value of its type. */
  lemma ParsedHas(text: string, e: CacheEntry, j: nat)
    requires ParseEntry(text).Some? && j < 9
    ensures |Table(e)| == 9 && ReadTable(text, map[]).Some?
    ensures var t := ReadTable(text, map[]).value; var k := Table(e)[j].0;
      k in t && (j == 0 ==> t[k] == Int(1)) && t[k].Int? == (j in {0, 8})
  {
    hide ReadTable;
  }

  /** Without line `j`, whatever the entry, the metadata is malformed. */
  lemma MissingLine(e: CacheEntry, j: nat)
    requires j < 9
    ensures ParseEntry(Lines(Table(e)[..j] + Table(e)[j + 1..])) == None
  {
    hide Table, Fine, Writable, ReadTable, ParseEntry, Lines, AsMap;
    TableFine(e);
    NineLines(e);
    var t := Table(e)[..j] + Table(e)[j + 1..];
    MissingFine(Table(e), j);
    ReadsOrFails(t);
    KeysOf(t);
    if ParseEntry(Lines(t)).Some? {
      ParsedHas(Lines(t), e, j);
    }
  }

  lemma ChangedFine(t: seq<(string, Value)>, j: nat, v: Value)
    requires Fine(t) && j < |t|
    ensures Fine(t[j := (t[j].0, v)])
  {
    hide IsKey;
  }

  lemma MissingFine(t: seq<(string, Value)>, j: nat)
    requires Fine(t) && j < |t|
    ensures var u := t[..j] + t[j + 1..]; Fine(u) && forall i :: 0 <= i < |u| ==> u[i].0 != t[j].0
  {
    hide IsKey;
    var u := t[..j] + t[j + 1..];
    assert forall i :: 0 <= i < |u| ==> u[i] == t[if i < j then i else i + 1];
  }

  lemma ReadsOrFails(t: seq<(string, Value)>)
    requires Fine(t)
    ensures ReadTable(Lines(t), map[]) in {None, Some(AsMap(t))}
  {
    hide Fine, Writable, ReadTable, Lines, AsMap;
    assert t[0..] == t && t[..0] == [];
    if forall j :: 0 <= j < |t| ==> Writable(t[j].1) {
      TableReads(t, 0);
      NoLines();
    } else {
      TableFails(t, 0, map[]);
    }
  }

  lemma NineLines(e: CacheEntry)
    ensures |Table(e)| == 9
  {
  }

  lemma NoLines()
    ensures AsMap([]) == map[]
  {
  }

  /** The fields of the table are those of the entry. */
  lemma FieldsBack(e: CacheEntry)
    requires Fine(Table(e))
    ensures var t := AsMap(Table(e));
      && IntAt(t, "schema_version") == Some(1) && IntAt(t, "written_at_epoch_seconds") == Some(e.writtenAt)
      && StrAt(t, "compiler_version") == Some(e.key.compilerVersion) &&
          StrAt(t, "package_name") == Some(e.key.packageName)
      && StrAt(t, "package_version") == Some(e.key.packageVersion) && StrAt(t, "edition") == Some(e.key.edition)
      && StrAt(t, "profile") == Some(e.key.profile) && StrAt(t, "target_triple") == Some(e.key.targetTriple)
      && StrAt(t, "content_hash") == Some(e.contentHash)
  {
    hide Fine, AsMap;
    var t := Table(e);
    Lookup(t, 0); Lookup(t, 1); Lookup(t, 2); Lookup(t, 3); Lookup(t, 4);
    Lookup(t, 5); Lookup(t, 6); Lookup(t, 7); Lookup(t, 8);
  }
}
