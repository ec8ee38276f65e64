/** Which candidates survive being written as text and read again. */
module CandidateTextProofs {
  import opened Wrappers
  import opened Utf8
  import opened CompactStream
  import opened SdpCodec
  import opened CandidateTexts
  import opened MarkerProofs
  import opened CandidateLineProofs

  // ---- splitting ----

  predicate Solid(s: string, gap: char -> bool) { s != "" && forall c <- s :: !gap(c) }

  lemma GapFree(x: string, y: string, gap: char -> bool)
    requires forall c <- x :: !gap(c)
    ensures forall j | 0 <= j < |x| :: !gap((x + y)[j])
  {
    forall j | 0 <= j < |x| ensures !gap((x + y)[j]) { assert (x + y)[j] == x[j] && x[j] in x; }
  }

  lemma LeadingApart(x: string, y: string, gap: char -> bool)
    requires (forall c <- x :: !gap(c)) && (y != "" ==> gap(y[0]))
    ensures Leading(x + y, gap) == |x|
  {
    GapFree(x, y, gap);
    assert y != "" ==> (x + y)[|x|] == y[0];
  }

  lemma SplitFirst(x: string, y: string, fields: seq<string>)
    requires Solid(x, Blank) && Split(y, Blank) == fields
    ensures Split(After(x, y), Blank) == [x] + fields
  {
    var s := After(x, y);
    GapFree(x, " " + y, Blank);
    LeadingApart(x, " " + y, Blank);
    assert s[..|x|] == x && s[|x|..] == " " + y && (" " + y)[1..] == y;
    assert Split(" " + y, Blank) == fields;
  }

  lemma SplitLast(x: string, gap: char -> bool)
    requires Solid(x, gap)
    ensures Split(x, gap) == [x]
  {
    assert x[0] in x;
    assert x + "" == x;
    LeadingApart(x, "", gap);
    assert x[..|x|] == x && x[|x|..] == "";
  }

  /** A piece that goes on beyond `u`. */
  lemma SplitStart(u: string, r: string, gap: char -> bool)
    requires Solid(u, gap)
    ensures var f := Split(u + r, gap); f != [] && u <= f[0]
  {
    GapFree(u, r, gap);
    var k := Leading(u + r, gap);
    assert (u + r)[..|u|] == u && (u + r)[..k][..|u|] == u;
  }

  // ---- white space ----

  lemma {:induction false} SimplifiedChars(s: string, gap: char -> bool)
    ensures forall c <- Join(Split(s, gap)) :: c == ' ' || (c in s && !gap(c))
    decreases |s|
  {
    if s == "" {
    } else if gap(s[0]) {
      SimplifiedChars(s[1..], gap);
    } else {
      var k := Leading(s, gap);
      SimplifiedChars(s[k..], gap);
      assert forall c <- s[..k] :: c in s && !gap(c);
      assert forall c <- s[k..] :: c in s;
      assert Split(s, gap)[1..] == Split(s[k..], gap);
    }
  }

  lemma {:induction false} SimplifiedLength(s: string, gap: char -> bool)
    ensures |Join(Split(s, gap))| <= |s|
    decreases |s|
  {
    if s == "" {
    } else if gap(s[0]) {
      SimplifiedLength(s[1..], gap);
    } else {
      var k := Leading(s, gap);
      assert Split(s, gap)[1..] == Split(s[k..], gap);
      if k < |s| {
        assert s[k..][1..] == s[k + 1..];
        SimplifiedLength(s[k + 1..], gap);
      }
    }
  }

  lemma SimplifiedStart(u: string, r: string)
    requires Solid(u, Space)
    ensures u <= Simplified(u + r) && |Simplified(u + r)| <= |u + r|
  {
    SplitStart(u, r, Space);
    SimplifiedLength(u + r, Space);
  }

  lemma SimplifiedSame(s: string)
    requires Solid(s, Space)
    ensures Simplified(s) == s
  {
    SplitLast(s, Space);
  }

  // ---- Latin-1 ----

  lemma {:induction false} Latin1Joined(x: string, y: string)
    ensures ToLatin1(x + y) == ToLatin1(x) + ToLatin1(y)
    decreases |x|
  {
    if x == "" {
      assert x + y == y;
    } else {
      assert (x + y)[0] == x[0] && (x + y)[1..] == x[1..] + y;
      Latin1Joined(x[1..], y);
    }
  }

  lemma {:induction false} Latin1Back(b: Bytes)
    ensures ToLatin1(FromLatin1(b)) == b
  {
    if b != [] {
      Latin1Back(b[1..]);
      assert FromLatin1(b)[0] == b[0] as char && FromLatin1(b)[1..] == FromLatin1(b[1..]);
      assert b == [b[0]] + b[1..];
    }
  }

  /** A text that lost a percent sign, cut at or after the place, gives other bytes. */
  lemma Latin1Lost(b: Bytes, x: string, p: nat)
    requires p <= |x| && p < |b| && x[..p] == FromLatin1(b)[..p] && b[p] == 0x25 && (p < |x| ==> x[p] != '%')
    ensures ToLatin1(x) != b
  {
    assert x == x[..p] + x[p..] && FromLatin1(b)[..p] == FromLatin1(b[..p]);
    Latin1Joined(x[..p], x[p..]);
    Latin1Back(b[..p]);
    assert ToLatin1(x) == b[..p] + ToLatin1(x[p..]);
    if p < |x| {
      assert x[p..][0] == x[p] && ToLatin1(x[p..]) == Latin1Of(x[p]) + ToLatin1(x[p..][1..]);
      assert ToLatin1(x)[p] == Latin1Of(x[p])[0] != 0x25;
    } else {
      assert |ToLatin1(x)| == p;
    }
  }

  // ---- scopes that are read ----

  /** A scope that is written and read is the same, but for a mark at its start. */
  lemma WrittenScope(x: string)
    ensures var s := TextOfBytes(ToUtf8(x)); |s| <= |x| && forall c <- s :: c in x
  {
    TextBack(x);
    var b := ToUtf8(x);
    if Marked(b) {
      FirstOfSequence(x[0], ToUtf8(x[1..]));
      TextBack(x[1..]);
      assert b[3..] == ToUtf8(x[1..]);
    }
  }

  /** What a scope that was read can hold: no percent sign, and of white space only blanks. */
  lemma ReadScopes(lib: Library, w: string)
    requires HostAddress(lib, w).Some?
    ensures var s := Scope(HostAddress(lib, w).value); '%' !in s && forall c <- s :: Space(c) ==> c == ' '
    ensures '%' !in w ==> Scope(HostAddress(lib, w).value) == ""
  {
    var a := Simplified(w);
    SimplifiedChars(w, Space);
    if ':' in a {
      var k := ScopeMark(a);
      if k < |a| {
        assert forall c <- a[k + 1..] :: c in a && c != '%';
        WrittenScope(a[k + 1..]);
      }
      assert k < |a| ==> a[k] in a;
    }
  }

  lemma ReadsAddress(lib: Library, f: seq<string>, c: Candidate)
    requires ReadFields(lib, f) == Some(c)
    ensures Shaped(f) && HostAddress(lib, f[4]) == Some(c.address) && c.foundation == ToLatin1(f[0][|PREFIX|..])
  {
  }

  // ---- harmed lines ----

  lemma SpoiledFirst(c: Candidate, first: string, p: nat, f0: string)
    requires CandidateOk(c) && SpoiledAt(first, PREFIX + FromLatin1(c.foundation), p)
    requires f0 == first[..Leading(first, Blank)] && PREFIX <= f0
    ensures ToLatin1(f0[|PREFIX|..]) != c.foundation
  {
    var want := PREFIX + FromLatin1(c.foundation);
    FirstIsSolid(c);
    forall j | 0 <= j < |PREFIX| ensures want[j] != '%' { assert want[j] == PREFIX[j]; }
    forall j | 0 <= j < p ensures first[j] != ' ' {
      assert first[j] == first[..p][j] == want[..p][j] == want[j] && want[j] in want;
    }
    var n := p - |PREFIX|;
    assert want[p] == FromLatin1(c.foundation)[n];
    assert f0[|PREFIX|..][..n] == first[..p][|PREFIX|..] == want[..p][|PREFIX|..] == FromLatin1(c.foundation)[..n];
    Latin1Lost(c.foundation, f0[|PREFIX|..], n);
  }

  lemma SpoiledRead(lib: Library, c: Candidate, l: Line)
    requires CandidateOk(c) && Spoiled(l.first, PREFIX + FromLatin1(c.foundation))
    ensures ReadText(lib, LineText(l)) != Some(c)
  {
    var p :| SpoiledAt(l.first, PREFIX + FromLatin1(c.foundation), p);
    SpoiledBegins(c, l.first, p);
    FirstField(l.first, After("1", After("UDP", After(l.priority, FromAddress(l)))));
    var f := Split(LineText(l), Blank);
    if ReadFields(lib, f) == Some(c) {
      ReadsAddress(lib, f, c);
      SpoiledFirst(c, l.first, p, f[0]);
    }
  }

  lemma SpoiledBegins(c: Candidate, first: string, p: nat)
    requires SpoiledAt(first, PREFIX + FromLatin1(c.foundation), p)
    ensures first != "" && first[0] != ' '
  {
    var want := PREFIX + FromLatin1(c.foundation);
    assert want[0] == 'c';
    assert p > 0;
    assert first[0] == first[..p][0] == want[..p][0];
  }

  lemma FirstField(x: string, y: string)
    requires x != "" && x[0] != ' '
    ensures var f := Split(After(x, y), Blank); f != [] && f[0] == x[..Leading(x, Blank)]
  {
    var k := Leading(x, Blank);
    var s := After(x, y);
    assert s[0] == x[0];
    LeadingApart(x[..k], s[k..], Blank);
    assert s == x[..k] + s[k..] && s[..k] == x[..k];
  }

  /** The fields before the address. */
  lemma FieldsBefore(l: Line)
    requires Solid(l.first, Blank) && Solid(l.priority, Blank)
    ensures Split(LineText(l), Blank)
      == [l.first] + (["1"] + (["UDP"] + ([l.priority] + Split(FromAddress(l), Blank))))
  {
    var d := FromAddress(l);
    var c := After(l.priority, d);
    var b := After("UDP", c);
    SplitFirst(l.priority, d, Split(d, Blank));
    SplitFirst("UDP", c, Split(c, Blank));
    SplitFirst("1", b, Split(b, Blank));
    SplitFirst(l.first, After("1", b), Split(After("1", b), Blank));
  }

  function FromAddress(l: Line): string { After(l.address, After(l.port, After("typ", l.kind))) }

  lemma AddressField(l: Line)
    requires Solid(l.first, Blank) && Solid(l.priority, Blank) && l.address != "" && l.address[0] != ' '
    ensures var f := Split(LineText(l), Blank); |f| > 4 && f[4] == l.address[..Leading(l.address, Blank)]
  {
    FieldsBefore(l);
    FirstField(l.address, After(l.port, After("typ", l.kind)));
  }

  lemma FirstIsSolid(c: Candidate)
    requires CandidateOk(c)
    ensures Solid(PREFIX + FromLatin1(c.foundation), Blank)
  {
    var f := FromLatin1(c.foundation);
    assert forall k | 0 <= k < |f| :: f[k] == c.foundation[k] as char && c.foundation[k] in c.foundation;
  }

  lemma UnscopedRead(lib: Library, c: Candidate, l: Line)
    requires Sane(lib) && CandidateOk(c) && Scope(c.address) != "" && Unscoped(l.address)
    requires l.first == PREFIX + FromLatin1(c.foundation) && l.priority == Decimal(c.priority)
    ensures ReadText(lib, LineText(l)) != Some(c)
  {
    FirstIsSolid(c);
    NumberBegins(lib, c.priority);
    AddressField(l);
    var f := Split(LineText(l), Blank);
    if ReadFields(lib, f) == Some(c) {
      ReadsAddress(lib, f, c);
      ReadScopes(lib, f[4]);
    }
  }

  lemma HarmedRead(lib: Library, c: Candidate, l: Line)
    requires Sane(lib) && CandidateOk(c)
    requires Harmed(l, PREFIX + FromLatin1(c.foundation), Decimal(c.priority), c.address)
    ensures ReadText(lib, LineText(l)) != Some(c)
  {
    if Spoiled(l.first, PREFIX + FromLatin1(c.foundation)) { SpoiledRead(lib, c, l); }
    else { UnscopedRead(lib, c, l); }
  }

  // ---- lines with every field in its place ----

  lemma ShownAddress(lib: Library, a: Address) returns (t: string)
    requires Sane(lib) && AddressOk(a)
    ensures Solid(t, Space) && '%' !in t && (':' in t <==> a.IPv6?)
    ensures lib.parse(t) == Some(if a.IPv4? then V4(a.word) else V6(a.bytes))
    ensures AddressText(lib, a) == if Scope(a) == "" then t else t + ("%" + Scope(a))
  {
    var ip := if a.IPv4? then V4(a.word) else V6(a.bytes);
    t := lib.show(ip);
    assert Shows(lib, ip);
  }

  /** A scope with a blank is cut there. */
  lemma BlankCuts(lib: Library, c: Candidate)
    requires Sane(lib) && CandidateOk(c) && ' ' in Scope(c.address)
    ensures ReadText(lib, LineText(PlainLine(lib, c))) != Some(c)
  {
    var l, s := PlainLine(lib, c), Scope(c.address);
    FirstIsSolid(c);
    NumberBegins(lib, c.priority);
    var t := ShownAddress(lib, c.address);
    assert t[0] in t && l.address[0] == t[0];
    AddressField(l);
    BlankInside(t, s);
    var f := Split(LineText(l), Blank);
    if ReadFields(lib, f) == Some(c) {
      ReadsAddress(lib, f, c);
      CutScope(lib, t, s[..Leading(s, Blank)]);
    }
  }

  lemma LeadingBeyond(x: string, y: string, gap: char -> bool)
    requires forall c <- x :: !gap(c)
    ensures Leading(x + y, gap) == |x| + Leading(y, gap)
  {
    GapFree(x, y, gap);
    var k := |x| + Leading(y, gap);
    forall j | |x| <= j < k ensures !gap((x + y)[j]) { assert (x + y)[j] == y[j - |x|]; }
    assert k < |x + y| ==> (x + y)[k] == y[k - |x|];
  }

  lemma BlankFound(s: string)
    requires ' ' in s
    ensures Leading(s, Blank) < |s|
  {
    var i :| 0 <= i < |s| && s[i] == ' ';
    assert Blank(s[i]);
  }

  lemma BlankInside(t: string, s: string)
    requires Solid(t, Space) && ' ' in s
    ensures var j := Leading(s, Blank); var w := t + ("%" + s);
      j < |s| && w[..Leading(w, Blank)] == t + ("%" + s[..j])
  {
    var h := t + "%";
    BlankFound(s);
    LeadingBeyond(h, s, Blank);
    Reassociated(t, "%", s);
    Reassociated(t, "%", s[..Leading(s, Blank)]);
    CutBeyond(h, s, Leading(s, Blank));
  }

  lemma Reassociated(a: string, b: string, c: string)
    ensures a + (b + c) == (a + b) + c
  {
  }

  lemma CutBeyond(h: string, s: string, j: nat)
    requires j <= |s|
    ensures (h + s)[..|h| + j] == h + s[..j]
  {
  }

  lemma CutScope(lib: Library, t: string, s: string)
    requires Solid(t, Space) && '%' !in t && HostAddress(lib, t + ("%" + s)).Some?
    ensures |Scope(HostAddress(lib, t + ("%" + s)).value)| <= |s|
  {
    var w := t + ("%" + s);
    var a := Simplified(w);
    SimplifiedStart(t, "%" + s);
    if ':' in a {
      var k := ScopeMark(a);
      if k < |a| {
        forall j | 0 <= j < |t| ensures a[j] != '%' { assert a[j] == t[j] && t[j] in t; }
        WrittenScope(a[k + 1..]);
      }
    }
  }

  /** The address as it is read. */
  function Reread(a: Address): Address { if a.IPv4? then a else a.(scope := ToUtf8(Scope(a))) }

  /** The scope is what stands behind the last percent sign. */
  lemma ScopeBegins(t: string, s: string)
    requires '%' !in t && '%' !in s
    ensures ScopeMark(t) == |t|
    ensures ScopeMark(t + ("%" + s)) == |t|
  {
    var w := t + ("%" + s);
    assert w[|t|] == '%' && w[|t| + 1..] == s;
    forall j | |t| < j < |w| ensures w[j] != '%' { assert w[j] == s[j - |t| - 1] && w[j] in s; }
  }

  lemma ScopeCut(t: string, s: string)
    ensures var w := t + ("%" + s); w[..|t|] == t && w[|t| + 1..] == s && (':' in t ==> ':' in w)
  {
    var w := t + ("%" + s);
    if ':' in t {
      var k :| 0 <= k < |t| && t[k] == ':';
      assert w[k] == ':';
    }
  }

  lemma AddressRead(lib: Library, a: Address)
    requires Sane(lib) && AddressOk(a) && '%' !in Scope(a) && Unspaced(Scope(a))
    ensures HostAddress(lib, AddressText(lib, a)) == Some(Reread(a)) && Solid(AddressText(lib, a), Space)
  {
    var t := ShownAddress(lib, a);
    var w := AddressText(lib, a);
    assert Solid(w, Space);
    SimplifiedSame(w);
    ScopeBegins(t, Scope(a));
    if Scope(a) == "" { assert w[..|t|] == t; } else { ScopeCut(t, Scope(a)); }
  }

  /** Everything but the bytes of a scope comes back. */
  lemma PlainRead(lib: Library, c: Candidate)
    requires Sane(lib) && CandidateOk(c) && '%' !in Scope(c.address) && Unspaced(Scope(c.address))
    ensures var n := c.(address := Reread(c.address));
      ReadText(lib, LineText(PlainLine(lib, c))) == if CandidateOk(n) then Some(n) else None
  {
    var l := PlainLine(lib, c);
    FieldsOfPlain(lib, c);
    var f := [l.first, "1", "UDP", l.priority, l.address, l.port, "typ", l.kind];
    PlainShape(c, f);
    AddressRead(lib, c.address);
    assert lib.number(f[3]) == Some(c.priority) && lib.number(f[5]) == Some(c.port);
  }

  lemma PlainShape(c: Candidate, f: seq<string>)
    requires CandidateOk(c) && |f| == 8 && f[0] == PREFIX + FromLatin1(c.foundation)
    requires f[1] == "1" && f[2] == "UDP" && f[6] == "typ" && f[7] == KindText(c.kind)
    ensures Shaped(f) && KindNamed(f[7]) == Some(c.kind) && ToLatin1(f[0][|PREFIX|..]) == c.foundation
  {
    Latin1Back(c.foundation);
    assert f[0][|PREFIX|..] == FromLatin1(c.foundation) && f[0][..|PREFIX|] == PREFIX;
  }

  lemma FieldsOfPlain(lib: Library, c: Candidate)
    requires Sane(lib) && CandidateOk(c) && '%' !in Scope(c.address) && Unspaced(Scope(c.address))
    ensures var l := PlainLine(lib, c);
      Split(LineText(l), Blank) == [l.first, "1", "UDP", l.priority, l.address, l.port, "typ", l.kind]
  {
    var l := PlainLine(lib, c);
    FirstIsSolid(c);
    NumberBegins(lib, c.priority);
    FieldsBefore(l);
    FieldsAfter(lib, c);
    Eight(l.first, "1", "UDP", l.priority, l.address, l.port, "typ", l.kind);
  }

  lemma FieldsAfter(lib: Library, c: Candidate)
    requires Sane(lib) && CandidateOk(c) && '%' !in Scope(c.address) && Unspaced(Scope(c.address))
    ensures var l := PlainLine(lib, c);
      Split(FromAddress(l), Blank) == [l.address] + ([l.port] + (["typ"] + [l.kind]))
  {
    var l := PlainLine(lib, c);
    NumberBegins(lib, c.port);
    KindBegins(c.kind);
    AddressRead(lib, c.address);
    SplitLast(l.kind, Blank);
    SplitFirst("typ", l.kind, [l.kind]);
    SplitFirst(l.port, After("typ", l.kind), ["typ"] + [l.kind]);
    SplitFirst(l.address, After(l.port, After("typ", l.kind)), [l.port] + (["typ"] + [l.kind]));
  }

  lemma Eight(a: string, b: string, c: string, d: string, e: string, f: string, g: string, h: string)
    ensures [a] + ([b] + ([c] + ([d] + ([e] + ([f] + ([g] + [h])))))) == [a, b, c, d, e, f, g, h]
  {
  }

  // ---- the theorem ----

  lemma PlainScope(c: Candidate)
    requires Plain(c)
    ensures '%' !in Scope(c.address) && Unspaced(Scope(c.address)) && Unmarked("%" + Scope(c.address))
  {
    if c.address.IPv4? { LonePercent(); }
    assert "%" + "" == "%";
  }

  /** A candidate's text is read back as the candidate exactly if no marker and no scope stands in the way. */
  lemma TextReadBack(lib: Library, c: Candidate)
    requires Sane(lib) && CandidateOk(c)
    ensures ReadText(lib, CandidateText(lib, c)) == Some(c) <==> Plain(c)
  {
    if Plain(c) { PlainScope(c); }
    var s := Scope(c.address);
    if '%' in s || exists x <- s :: Space(x) && x != ' ' {
      OddScope(lib, c);
    } else if !Unmarked(FromLatin1(c.foundation)) || !Unmarked("%" + s) {
      var l := MarkedIsHarmed(lib, c);
      HarmedRead(lib, c, l);
    } else {
      Unspoiled(lib, c);
      if ' ' in s { BlankCuts(lib, c); } else { CleanScope(lib, c); }
    }
  }

  lemma OddScope(lib: Library, c: Candidate)
    requires '%' in Scope(c.address) || exists x <- Scope(c.address) :: Space(x) && x != ' '
    ensures ReadText(lib, CandidateText(lib, c)) != Some(c)
  {
    var f := Split(CandidateText(lib, c), Blank);
    if ReadFields(lib, f) == Some(c) {
      ReadsAddress(lib, f, c);
      ReadScopes(lib, f[4]);
    }
  }

  lemma CleanScope(lib: Library, c: Candidate)
    requires Sane(lib) && CandidateOk(c) && '%' !in Scope(c.address) && Unspaced(Scope(c.address))
    requires Unmarked(FromLatin1(c.foundation)) && Unmarked("%" + Scope(c.address))
    ensures ReadText(lib, LineText(PlainLine(lib, c))) == Some(c) <==> Plain(c)
  {
    PlainRead(lib, c);
    if c.address.IPv6? { WholeBack(c.address.scope); }
  }
}
