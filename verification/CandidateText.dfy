/** The text of one candidate: how it is built from fields, and how fields are taken from it. */
module CandidateTexts {
  import opened Wrappers
  import opened Utf8
  import opened CompactStream
  import opened SdpCodec

  // ---- place markers ----

  predicate Digit(c: char) { '0' <= c <= '9' }

  function DigitValue(c: char): nat
    requires Digit(c)
  {
    c as nat - '0' as nat
  }

  /** A percent sign, an L for the user's locale, and one or two digits. */
  datatype Marker = Marker(number: nat, size: nat, local: bool)

  /** The marker the text begins with. */
  function MarkerAt(s: string): (m: Option<Marker>)
    ensures m.Some? ==> 2 <= m.value.size <= |s| && m.value.number < 100 && s[0] == '%'
  {
    if |s| < 2 || s[0] != '%' then None
    else
      var k := if s[1] == 'L' then 2 else 1;
      if |s| <= k || !Digit(s[k]) then None
      else if |s| > k + 1 && Digit(s[k + 1]) then
        Some(Marker(10 * DigitValue(s[k]) + DigitValue(s[k + 1]), k + 2, k == 2))
      else Some(Marker(DigitValue(s[k]), k + 1, k == 2))
  }

  const NO_MARKER := 100

  /** The lowest marker anywhere in the text. */
  function Lowest(s: string): (n: nat)
    ensures n <= NO_MARKER
  {
    if s == "" then NO_MARKER
    else
      var rest := Lowest(s[1..]);
      match MarkerAt(s) case Some(m) => if m.number < rest then m.number else rest case None => rest
  }

  /** What stands for a marker: as it is, and in the user's locale. */
  datatype Value = Value(plain: string, local: string)

  function Replace(s: string, n: nat, v: Value): string {
    if s == "" then ""
    else match MarkerAt(s)
      case Some(m) =>
        if m.number == n then (if m.local then v.local else v.plain) + Replace(s[m.size..], n, v)
        else [s[0]] + Replace(s[1..], n, v)
      case None => [s[0]] + Replace(s[1..], n, v)
  }

  /** Every occurrence of the lowest marker is replaced, wherever it came from. */
  function Arg(s: string, v: Value): string { if Lowest(s) == NO_MARKER then s else Replace(s, Lowest(s), v) }

  // ---- what the libraries contribute ----

  datatype Ip = V4(word: nat) | V6(bytes: Bytes)

  predicate IpOk(ip: Ip) { match ip case V4(word) => word < Limit(4) case V6(bytes) => |bytes| == 16 }

  /** Printing and parsing of plain addresses and numbers, and which candidate texts are taken. */
  datatype Library = Library(show: Ip -> string, parse: string -> Option<Ip>, number: string -> Option<nat>,
                             local: nat -> string, takes: string -> bool)

  // ---- building ----

  function Decimal(n: nat): string {
    if n < 10 then [('0' as nat + n) as char] else Decimal(n / 10) + [('0' as nat + n % 10) as char]
  }

  function FromLatin1(b: Bytes): string { seq(|b|, i requires 0 <= i < |b| => b[i] as char) }

  function AddressText(lib: Library, a: Address): string {
    match a
    case IPv4(word) => lib.show(V4(word))
    case IPv6(bytes, scope) =>
      var s := TextOfBytes(scope);
      lib.show(V6(bytes)) + if s == "" then "" else "%" + s
  }

  function KindText(kind: CandidateType): string {
    match kind case Relayed => "relay" case ServerReflexive => "srflx" case _ => "host"
  }

  const TEMPLATE := "candidate:%1 1 UDP %2 %3 %4 typ %5"

  function Literal(s: string): Value { Value(s, s) }

  function NumberValue(lib: Library, n: nat): Value { Value(Decimal(n), lib.local(n)) }

  function CandidateText(lib: Library, c: Candidate): string {
    Arg(Arg(Arg(Arg(Arg(TEMPLATE, Literal(FromLatin1(c.foundation))), NumberValue(lib, c.priority)),
                Literal(AddressText(lib, c.address))), NumberValue(lib, c.port)), Literal(KindText(c.kind)))
  }

  // ---- reading ----

  function Leading(s: string, gap: char -> bool): (k: nat)
    ensures k <= |s| && (forall j | 0 <= j < k :: !gap(s[j])) && (k < |s| ==> gap(s[k]))
  {
    if s == "" || gap(s[0]) then 0 else 1 + Leading(s[1..], gap)
  }

  /** The pieces between the gaps, empty ones skipped. */
  function Split(s: string, gap: char -> bool): seq<string>
    decreases |s|
  {
    if s == "" then []
    else if gap(s[0]) then Split(s[1..], gap)
    else
      var k := Leading(s, gap);
      [s[..k]] + Split(s[k..], gap)
  }

  function Join(fields: seq<string>): string {
    if fields == [] then "" else if |fields| == 1 then fields[0] else fields[0] + (" " + Join(fields[1..]))
  }

  predicate Blank(c: char) { c == ' ' }

  predicate Space(c: char) {
    var v := c as nat;
    || v == 0x20 || 0x09 <= v <= 0x0d || v == 0x85 || v == 0xa0 || v == 0x1680 || 0x2000 <= v <= 0x200a
    || v == 0x2028 || v == 0x2029 || v == 0x202f || v == 0x205f || v == 0x3000
  }

  /** White space trimmed, and each run of it made one blank. */
  function Simplified(s: string): string { Join(Split(s, Space)) }

  /** Outside of Latin-1 there is a question mark for each 16-bit unit. */
  function Latin1Of(c: char): Bytes {
    if c as nat < 0x100 then [c as byte] else if c as nat < 0x10000 then [0x3f] else [0x3f, 0x3f]
  }

  function ToLatin1(s: string): Bytes { if s == "" then [] else Latin1Of(s[0]) + ToLatin1(s[1..]) }

  /** The last percent sign, or the length of the text. */
  function ScopeMark(s: string): (k: nat)
    ensures k <= |s| && (k < |s| ==> s[k] == '%')
    ensures forall j | 0 <= j < |s| && (k == |s| || k < j) :: s[j] != '%'
  {
    if s == "" then 0
    else
      var k := ScopeMark(s[1..]);
      if k < |s| - 1 then k + 1 else if s[0] == '%' then 0 else |s|
  }

  function HostAddress(lib: Library, text: string): Option<Address> {
    var a := Simplified(text);
    if ':' in a then
      var k := ScopeMark(a);
      match lib.parse(a[..k])
      case Some(V6(bytes)) => Some(IPv6(bytes, if k < |a| then ToUtf8(a[k + 1..]) else []))
      case _ => None
    else match lib.parse(a) case Some(V4(word)) => Some(IPv4(word)) case _ => None
  }

  predicate Udp(s: string) { |s| == 3 && s[0] in "uU" && s[1] in "dD" && s[2] in "pP" }

  function KindNamed(s: string): Option<CandidateType> {
    if s == "relay" then Some(Relayed) else if s == "srflx" then Some(ServerReflexive)
    else if s == "host" then Some(Host) else None
  }

  const PREFIX := "candidate:"

  predicate Shaped(f: seq<string>) {
    && |f| >= 8 && PREFIX <= f[0] && f[1] == "1" && Udp(f[2]) && f[6] == "typ" && KindNamed(f[7]).Some?
  }

  function ReadFields(lib: Library, f: seq<string>): Option<Candidate> {
    if !Shaped(f) then None
    else match (lib.number(f[3]), HostAddress(lib, f[4]), lib.number(f[5]))
      case (Some(priority), Some(address), Some(port)) =>
        var c := Candidate(ToLatin1(f[0][|PREFIX|..]), priority, port, address, KindNamed(f[7]).value);
        if CandidateOk(c) then Some(c) else None
      case _ => None
  }

  /** The fields of a candidate's text; what does not have the expected shape is refused. */
  function ReadText(lib: Library, text: string): Option<Candidate> { ReadFields(lib, Split(text, Blank)) }
}
