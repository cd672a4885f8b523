/** Quoted strings and decimal numbers, as the cache's TOML and the catalog's
    JSON write them. */
module TextForms {
  import opened Options

  /** Text read from the front of a string, and what is left. */
  datatype Read<+T> = Failed | Read(value: T, rest: string)

  function Hex(n: nat, upper: bool): char
    requires n < 16
  {
    if n < 10 then '0' + n as char else (if upper then 'A' else 'a') + (n - 10) as char
  }

  /** How a character is written in a quoted string, in JSON and in TOML; they
      differ in the letters of hexadecimal digits. */
  function Escape(c: char, upper: bool): string {
    if c == '\\' then "\\\\"
    else if c == '"' then "\\\""
    else if c == '\n' then "\\n"
    else if c == '\r' then "\\r"
    else if c == '\t' then "\\t"
    else if c as int < 0x20 then "\\u00" + [Hex(c as int / 16, upper), Hex(c as int % 16, upper)]
    else [c]
  }

  function Escaped(s: string, upper: bool): string {
    if s == "" then "" else Escape(s[0], upper) + Escaped(s[1..], upper)
  }

  function Quoted(s: string, upper: bool): string {
    "\"" + Escaped(s, upper) + "\""
  }

  lemma AppendAssoc(a: string, b: string, c: string)
    ensures (a + b) + c == a + (b + c)
  {
  }

  function FromHex(c: char): Option<nat> {
    if '0' <= c <= '9' then Some((c as int) - '0' as int)
    else if 'A' <= c <= 'F' then Some((c as int) - 'A' as int + 10)
    else if 'a' <= c <= 'f' then Some((c as int) - 'a' as int + 10)
    else None
  }

  lemma HexBack(n: nat, upper: bool)
    requires n < 16
    ensures FromHex(Hex(n, upper)) == Some(n)
  {
  }

  function Digits(n: nat): (s: string)
    ensures |s| > 0 && forall i :: 0 <= i < |s| ==> '0' <= s[i] <= '9'
  {
    (if n < 10 then "" else Digits(n / 10)) + ['0' + (n % 10) as char]
  }

  function Number(s: string): nat
    requires forall i :: 0 <= i < |s| ==> '0' <= s[i] <= '9'
  {
    if s == "" then 0 else Number(s[..|s| - 1]) * 10 + (s[|s| - 1] as int - '0' as int)
  }

  lemma {:induction false} NumberDigits(n: nat)
    ensures Number(Digits(n)) == n
  {
    var front := if n < 10 then "" else Digits(n / 10);
    assert Digits(n)[..|Digits(n)| - 1] == front;
    if n >= 10 {
      NumberDigits(n / 10);
    }
  }

  /** The digits up to the first other character. */
  function ReadDigits(s: string): (r: (string, string))
    ensures r.0 + r.1 == s && (forall i :: 0 <= i < |r.0| ==> '0' <= r.0[i] <= '9')
  {
    if s == "" || !('0' <= s[0] <= '9') then ("", s)
    else
      var r := ReadDigits(s[1..]);
      ([s[0]] + r.0, r.1)
  }

  lemma {:induction false} DigitsRead(d: string, rest: string)
    requires (forall i :: 0 <= i < |d| ==> '0' <= d[i] <= '9') && (rest == "" || !('0' <= rest[0] <= '9'))
    ensures ReadDigits(d + rest) == (d, rest)
    decreases |d|
  {
    if d == "" {
      assert d + rest == rest;
    } else {
      assert (d + rest)[1..] == d[1..] + rest && [d[0]] + d[1..] == d;
      DigitsRead(d[1..], rest);
    }
  }
}
