/** How a candidate's text is built: every field in its place, or one of them harmed by a marker. */
module CandidateLineProofs {
  import opened Wrappers
  import opened Utf8
  import opened CompactStream
  import opened SdpCodec
  import opened CandidateTexts
  import opened MarkerProofs

  // ---- what is asked of the libraries ----

  /** Addresses are shown without percent signs and white space, and only IPv6 with colons. */
  ghost predicate Shows(lib: Library, ip: Ip) {
    var t := lib.show(ip);
    t != "" && '%' !in t && Unspaced(t) && (':' in t <==> ip.V6?) && lib.parse(t) == Some(ip)
  }

  ghost predicate Sane(lib: Library) {
    && (forall ip | IpOk(ip) :: Shows(lib, ip))
    && (forall n: nat :: lib.number(Decimal(n)) == Some(n))
    && (forall n: nat :: lib.local(n) != "" && '%' !in lib.local(n))
  }

  predicate Unspaced(s: string) { forall c <- s :: !Space(c) }

  // ---- which candidates are meant to survive ----

  const LAST_MARKER := 5

  /** Text without the markers that are still to be replaced. */
  predicate Unmarked(s: string) { Lowest(s) > LAST_MARKER }

  /** A scope that can stand behind the percent sign of an address. */
  predicate Carried(scope: Bytes) {
    && WellFormed(scope) && !Marked(scope)
    && var s := FromUtf8(scope); '%' !in s && Unspaced(s) && Unmarked("%" + s)
  }

  predicate Plain(c: Candidate) {
    Unmarked(FromLatin1(c.foundation)) && (c.address.IPv6? ==> Carried(c.address.scope))
  }

  // ---- the line ----

  function Scope(a: Address): string { if a.IPv6? then TextOfBytes(a.scope) else "" }

  /** The line with every field where it belongs. */
  function PlainLine(lib: Library, c: Candidate): Line {
    Line(PREFIX + FromLatin1(c.foundation), Decimal(c.priority), AddressText(lib, c.address), Decimal(c.port),
         KindText(c.kind))
  }

  lemma {:induction false} DecimalDigits(n: nat)
    ensures Decimal(n) != "" && Digit(Decimal(n)[0]) && forall c <- Decimal(n) :: Digit(c)
  {
    if n >= 10 { DecimalDigits(n / 10); }
  }

  lemma NumberBegins(lib: Library, n: nat)
    requires Sane(lib)
    ensures Begins(NumberValue(lib, n)) && Decimal(n) != "" && '%' !in Decimal(n) && Unspaced(Decimal(n))
    ensures '%' !in lib.local(n) && Lowest(Decimal(n)) == NO_MARKER
  {
    DecimalDigits(n);
    assert Decimal(n)[0] in Decimal(n);
    assert lib.local(n)[0] in lib.local(n);
    NoPercent(Decimal(n));
  }

  lemma KindBegins(kind: CandidateType)
    ensures Begins(Literal(KindText(kind))) && '%' !in KindText(kind) && Unspaced(KindText(kind))
  {
  }

  lemma AddressBegins(lib: Library, a: Address)
    requires Sane(lib) && AddressOk(a)
    ensures Begins(Literal(AddressText(lib, a))) && Lowest(AddressText(lib, a)) == Lowest("%" + Scope(a))
    ensures AddressText(lib, a)[0] != ' ' && (a.IPv4? ==> Lowest(AddressText(lib, a)) == NO_MARKER)
  {
    var ip := if a.IPv4? then V4(a.word) else V6(a.bytes);
    var t := lib.show(ip);
    assert Shows(lib, ip) && t[0] in t;
    if Scope(a) == "" {
      NoPercent(t);
      LonePercent();
      assert "%" + Scope(a) == "%" && AddressText(lib, a) == t;
    } else {
      AfterPlain(t, "%" + Scope(a), 0, Literal(""));
    }
  }

  lemma LonePercent()
    ensures Lowest("%") == NO_MARKER
  {
    assert MarkerAt("%") == None && "%"[1..] == "";
  }

  /** A replaced scope mark takes the only percent sign along. */
  lemma ScopeReplaced(lib: Library, a: Address, n: nat, v: Value)
    requires Sane(lib) && AddressOk(a) && a.IPv6? && '%' !in Scope(a) && '%' !in v.plain && '%' !in v.local
    requires Lowest(AddressText(lib, a)) == n < NO_MARKER && Begins(v)
    ensures Scope(a) != "" && Unscoped(Replace(AddressText(lib, a), n, v))
  {
    var t, s := lib.show(V6(a.bytes)), Scope(a);
    AddressBegins(lib, a);
    if s == "" { LonePercent(); }
    assert Shows(lib, V6(a.bytes)) && t[0] in t;
    AfterPlain(t, "%" + s, n, v);
    ScopeMarker(s, n, v);
    assert Replace(AddressText(lib, a), n, v) == t + Replace("%" + s, n, v);
  }

  lemma ScopeMarker(s: string, n: nat, v: Value)
    requires '%' !in s && Lowest("%" + s) == n < NO_MARKER && '%' !in v.plain && '%' !in v.local
    ensures '%' !in Replace("%" + s, n, v)
  {
    var w := "%" + s;
    assert w[1..] == s;
    NoPercent(s);
    var m := MarkerAt(w).value;
    var rest := w[m.size..];
    assert rest == s[m.size - 1..] && forall c <- rest :: c in s;
    NoPercent(rest);
    NothingReplaced(rest, n, v);
  }

  /** With priority and address in place as well. */
  function Addressed(lib: Library, c: Candidate): Line {
    Founded(FromLatin1(c.foundation)).(priority := Decimal(c.priority), address := AddressText(lib, c.address))
  }

  function ThreeArgs(lib: Library, c: Candidate): string {
    Arg(Arg(Arg(TEMPLATE, Literal(FromLatin1(c.foundation))), NumberValue(lib, c.priority)),
        Literal(AddressText(lib, c.address)))
  }

  lemma ThreeInPlace(lib: Library, c: Candidate)
    requires Sane(lib) && Lowest(FromLatin1(c.foundation)) > 3
    ensures ThreeArgs(lib, c) == LineText(Addressed(lib, c))
  {
    var f := FromLatin1(c.foundation);
    FoundationFirst(f);
    FirstIsFoundation(f);
    StepPriority(lib, Founded(f), c.priority);
    StepAddress(Founded(f).(priority := Decimal(c.priority)), AddressText(lib, c.address), lib, c.priority);
  }

  /** No marker left to replace: every value finds its place. */
  lemma Unspoiled(lib: Library, c: Candidate)
    requires Sane(lib) && CandidateOk(c)
    requires Unmarked(FromLatin1(c.foundation)) && Unmarked("%" + Scope(c.address))
    ensures CandidateText(lib, c) == LineText(PlainLine(lib, c))
  {
    var l := Addressed(lib, c);
    ThreeInPlace(lib, c);
    FirstIsFoundation(FromLatin1(c.foundation));
    AddressBegins(lib, c.address);
    NumberBegins(lib, c.priority);
    StepPort(lib, l, c.port);
    StepKind(l.(port := Decimal(c.port)), KindText(c.kind), lib, c.port);
    LastTwo(lib, c);
  }

  lemma LastTwo(lib: Library, c: Candidate)
    ensures CandidateText(lib, c) == Arg(Arg(ThreeArgs(lib, c), NumberValue(lib, c.port)), Literal(KindText(c.kind)))
  {
  }

  lemma FirstIsFoundation(f: string)
    ensures Lowest(PREFIX + f) == Lowest(f)
  {
    AfterPlain(PREFIX, f, 0, Literal(""));
  }

  lemma StepPriority(lib: Library, l: Line, n: nat)
    requires Sane(lib) && l.priority == "%2" && l.address == "%3" && l.port == "%4" && l.kind == "%5"
    requires Lowest(l.first) > 2
    ensures Arg(LineText(l), NumberValue(lib, n)) == LineText(l.(priority := Decimal(n)))
  {
    var v := NumberValue(lib, n);
    Marks(v);
    ArgOfLine(l, v);
    NothingReplaced(l.first, 2, v);
    NothingReplaced("%3", 2, v);
    NothingReplaced("%4", 2, v);
    NothingReplaced("%5", 2, v);
  }

  lemma StepAddress(l: Line, a: string, lib: Library, priority: nat)
    requires Sane(lib) && l.priority == Decimal(priority) && l.address == "%3" && l.port == "%4" && l.kind == "%5"
    requires Lowest(l.first) > 3
    ensures Arg(LineText(l), Literal(a)) == LineText(l.(address := a))
  {
    var v := Literal(a);
    Marks(v);
    NumberBegins(lib, priority);
    ArgOfLine(l, v);
    NothingReplaced(l.first, 3, v);
    NothingReplaced(l.priority, 3, v);
    NothingReplaced("%4", 3, v);
    NothingReplaced("%5", 3, v);
  }

  lemma StepPort(lib: Library, l: Line, n: nat)
    requires Sane(lib) && Lowest(l.priority) == NO_MARKER && l.port == "%4" && l.kind == "%5"
    requires Lowest(l.first) > 4 && Lowest(l.address) > 4
    ensures Arg(LineText(l), NumberValue(lib, n)) == LineText(l.(port := Decimal(n)))
  {
    var v := NumberValue(lib, n);
    Marks(v);
    ArgOfLine(l, v);
    NothingReplaced(l.first, 4, v);
    NothingReplaced(l.priority, 4, v);
    NothingReplaced(l.address, 4, v);
    NothingReplaced("%5", 4, v);
  }

  lemma StepKind(l: Line, kind: string, lib: Library, port: nat)
    requires Sane(lib) && Lowest(l.priority) == NO_MARKER && l.port == Decimal(port) && l.kind == "%5"
    requires Lowest(l.first) > 5 && Lowest(l.address) > 5
    ensures Arg(LineText(l), Literal(kind)) == LineText(l.(kind := kind))
  {
    var v := Literal(kind);
    Marks(v);
    NumberBegins(lib, port);
    ArgOfLine(l, v);
    NothingReplaced(l.first, 5, v);
    NothingReplaced(l.priority, 5, v);
    NothingReplaced(l.address, 5, v);
    NothingReplaced(l.port, 5, v);
  }

  // ---- a marker that is replaced in the wrong place ----

  /** The foundation has lost a percent sign, or the address its only one. */
  ghost predicate Harmed(l: Line, first: string, priority: string, a: Address) {
    || Spoiled(l.first, first)
    || (l.first == first && l.priority == priority && Scope(a) != "" && Unscoped(l.address))
  }

  predicate Unscoped(address: string) { address != "" && address[0] != ' ' && '%' !in address }

  lemma SpoiledStays(l: Line, first: string, v: Value)
    requires Begins(v) && Spoiled(l.first, first)
    ensures Arg(LineText(l), v) == LineText(LineArg(l, v)) && Spoiled(LineArg(l, v).first, first)
  {
    ArgOfLine(l, v);
    if LineLowest(l) < NO_MARKER { StaysSpoiled(l.first, first, LineLowest(l), v); }
  }

  /** The priority or the address takes the place of a marker in the foundation. */
  lemma FoundationHit(lib: Library, c: Candidate) returns (l: Line)
    requires Sane(lib) && CandidateOk(c) && Lowest(FromLatin1(c.foundation)) <= 3
    ensures ThreeArgs(lib, c) == LineText(l) && Spoiled(l.first, PREFIX + FromLatin1(c.foundation))
  {
    var f := FromLatin1(c.foundation);
    var first, p, a := PREFIX + f, NumberValue(lib, c.priority), Literal(AddressText(lib, c.address));
    FoundationFirst(f);
    FirstIsFoundation(f);
    NumberBegins(lib, c.priority);
    AddressBegins(lib, c.address);
    if Lowest(f) <= 2 {
      var m := FirstHit(Founded(f), p);
      SpoiledStays(m, first, a);
      l := LineArg(m, a);
    } else {
      StepPriority(lib, Founded(f), c.priority);
      l := SecondHit(lib, Founded(f).(priority := Decimal(c.priority)), c.priority, a);
    }
  }

  lemma FirstHit(l: Line, p: Value) returns (n: Line)
    requires Begins(p) && Lowest(l.first) <= 2
    requires l.priority == "%2" && l.address == "%3" && l.port == "%4" && l.kind == "%5"
    ensures Arg(LineText(l), p) == LineText(n) && Spoiled(n.first, l.first)
  {
    Marks(p);
    ArgOfLine(l, p);
    Spoils(l.first, p);
    n := LineArg(l, p);
  }

  lemma SecondHit(lib: Library, l: Line, priority: nat, a: Value) returns (n: Line)
    requires Sane(lib) && Begins(a) && Lowest(l.first) == 3
    requires l.priority == Decimal(priority) && l.address == "%3" && l.port == "%4" && l.kind == "%5"
    ensures Arg(LineText(l), a) == LineText(n) && Spoiled(n.first, l.first)
  {
    Marks(a);
    NumberBegins(lib, priority);
    ArgOfLine(l, a);
    Spoils(l.first, a);
    n := LineArg(l, a);
  }

  /** Port and kind: whichever marker is the lowest, its place is lost. */
  lemma TwoMore(lib: Library, c: Candidate) returns (n: Line)
    requires Sane(lib) && CandidateOk(c) && '%' !in Scope(c.address)
    requires !Unmarked(FromLatin1(c.foundation)) || !Unmarked("%" + Scope(c.address))
    requires Lowest(FromLatin1(c.foundation)) > 3
    ensures Arg(Arg(LineText(Addressed(lib, c)), NumberValue(lib, c.port)), Literal(KindText(c.kind))) == LineText(n)
    ensures Harmed(n, PREFIX + FromLatin1(c.foundation), Decimal(c.priority), c.address)
  {
    var l := Addressed(lib, c);
    FirstIsFoundation(FromLatin1(c.foundation));
    AddressBegins(lib, c.address);
    if Lowest(l.first) == 4 && Lowest(l.address) >= 4 {
      n := PortHit(lib, c, l);
    } else if Lowest(l.address) <= 4 {
      n := AddressHit(lib, c, l);
    } else {
      n := LastHit(lib, c, l);
    }
  }

  lemma PortHit(lib: Library, c: Candidate, l: Line) returns (n: Line)
    requires Sane(lib) && Lowest(l.first) == 4 && Lowest(l.address) >= 4
    requires l.priority == Decimal(c.priority) && l.port == "%4" && l.kind == "%5"
    ensures Arg(Arg(LineText(l), NumberValue(lib, c.port)), Literal(KindText(c.kind))) == LineText(n)
    ensures Spoiled(n.first, l.first)
  {
    var q, t := NumberValue(lib, c.port), Literal(KindText(c.kind));
    NumberBegins(lib, c.priority);
    NumberBegins(lib, c.port);
    KindBegins(c.kind);
    Marks(q);
    ArgOfLine(l, q);
    Spoils(l.first, q);
    SpoiledStays(LineArg(l, q), l.first, t);
    n := LineArg(LineArg(l, q), t);
  }

  /** The port takes the place of the scope's mark. */
  lemma AddressHit(lib: Library, c: Candidate, l: Line) returns (n: Line)
    requires Sane(lib) && CandidateOk(c) && '%' !in Scope(c.address) && l.address == AddressText(lib, c.address)
    requires l.priority == Decimal(c.priority) && l.port == "%4" && l.kind == "%5"
    requires Lowest(l.address) <= 4 && Lowest(l.first) > Lowest(l.address)
    ensures Arg(Arg(LineText(l), NumberValue(lib, c.port)), Literal(KindText(c.kind))) == LineText(n)
    ensures Harmed(n, l.first, l.priority, c.address)
  {
    var q, t := NumberValue(lib, c.port), Literal(KindText(c.kind));
    NumberBegins(lib, c.priority);
    NumberBegins(lib, c.port);
    KindBegins(c.kind);
    AddressBegins(lib, c.address);
    Marks(q);
    ArgOfLine(l, q);
    ScopeReplaced(lib, c.address, Lowest(l.address), q);
    var m := LineArg(l, q);
    Untouched(l, m, Lowest(l.address), q);
    n := KindLast(m, l.first, c.address, t);
  }

  lemma Untouched(l: Line, m: Line, k: nat, v: Value)
    requires k < Lowest(l.first) && k < Lowest(l.priority) && m == LineReplace(l, k, v)
    ensures m.first == l.first && m.priority == l.priority
  {
    NothingReplaced(l.first, k, v);
    NothingReplaced(l.priority, k, v);
  }

  lemma KindLast(l: Line, first: string, a: Address, t: Value) returns (n: Line)
    requires Begins(t) && l.first == first && Lowest(l.priority) == NO_MARKER
    requires Scope(a) != "" && Unscoped(l.address)
    ensures Arg(LineText(l), t) == LineText(n) && Harmed(n, first, l.priority, a)
  {
    n := LineArg(l, t);
    ArgOfLine(l, t);
    NoPercent(l.address);
    var k := LineLowest(l);
    if k < NO_MARKER {
      NothingReplaced(l.priority, k, t);
      NothingReplaced(l.address, k, t);
      if Lowest(first) == k { Spoils(first, t); } else { NothingReplaced(first, k, t); }
    }
  }

  /** The kind takes the place of a fifth marker. */
  lemma LastHit(lib: Library, c: Candidate, l: Line) returns (n: Line)
    requires Sane(lib) && CandidateOk(c) && '%' !in Scope(c.address) && l.address == AddressText(lib, c.address)
    requires l.priority == Decimal(c.priority) && l.port == "%4" && l.kind == "%5"
    requires Lowest(l.address) > 4 && Lowest(l.first) > 4 && (Lowest(l.address) == 5 || Lowest(l.first) == 5)
    ensures Arg(Arg(LineText(l), NumberValue(lib, c.port)), Literal(KindText(c.kind))) == LineText(n)
    ensures Harmed(n, l.first, l.priority, c.address)
  {
    NumberBegins(lib, c.priority);
    StepPort(lib, l, c.port);
    n := KindHit(lib, c, l.(port := Decimal(c.port)));
  }

  lemma KindHit(lib: Library, c: Candidate, l: Line) returns (n: Line)
    requires Sane(lib) && CandidateOk(c) && '%' !in Scope(c.address) && l.address == AddressText(lib, c.address)
    requires l.priority == Decimal(c.priority) && l.port == Decimal(c.port) && l.kind == "%5"
    requires Lowest(l.address) >= 5 && Lowest(l.first) >= 5 && (Lowest(l.address) == 5 || Lowest(l.first) == 5)
    ensures Arg(LineText(l), Literal(KindText(c.kind))) == LineText(n)
    ensures Harmed(n, l.first, l.priority, c.address)
  {
    var t := Literal(KindText(c.kind));
    NumberBegins(lib, c.priority);
    NumberBegins(lib, c.port);
    KindBegins(c.kind);
    AddressBegins(lib, c.address);
    Marks(t);
    ArgOfLine(l, t);
    n := LineArg(l, t);
    if Lowest(l.first) == 5 {
      Spoils(l.first, t);
    } else {
      Untouched(l, n, 5, t);
      ScopeReplaced(lib, c.address, 5, t);
    }
  }

  /** A marker up to the fifth harms the line, wherever it is. */
  lemma MarkedIsHarmed(lib: Library, c: Candidate) returns (n: Line)
    requires Sane(lib) && CandidateOk(c) && '%' !in Scope(c.address)
    requires !Unmarked(FromLatin1(c.foundation)) || !Unmarked("%" + Scope(c.address))
    ensures CandidateText(lib, c) == LineText(n)
    ensures Harmed(n, PREFIX + FromLatin1(c.foundation), Decimal(c.priority), c.address)
  {
    LastTwo(lib, c);
    if Lowest(FromLatin1(c.foundation)) <= 3 {
      var first := PREFIX + FromLatin1(c.foundation);
      var l := FoundationHit(lib, c);
      var q, t := NumberValue(lib, c.port), Literal(KindText(c.kind));
      NumberBegins(lib, c.port);
      KindBegins(c.kind);
      SpoiledStays(l, first, q);
      SpoiledStays(LineArg(l, q), first, t);
      n := LineArg(LineArg(l, q), t);
    } else {
      ThreeInPlace(lib, c);
      n := TwoMore(lib, c);
    }
  }
}
