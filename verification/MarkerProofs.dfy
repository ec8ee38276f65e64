/** What sequential replacement of place markers does to a text of fields. */
module MarkerProofs {
  import opened Wrappers
  import opened CandidateTexts

  function Min(a: nat, b: nat): nat { if a < b then a else b }

  // ---- a marker never crosses a blank ----

  lemma MarkerApart(x: string, y: string)
    requires x != ""
    ensures MarkerAt(x + (" " + y)) == MarkerAt(x)
  {
    var s := x + (" " + y);
    assert s[..|x|] == x && s[|x|] == ' ';
    assert forall k | 0 <= k < |x| :: s[k] == x[k];
  }

  lemma {:induction false} LowestApart(x: string, y: string)
    ensures Lowest(x + (" " + y)) == Min(Lowest(x), Lowest(y))
    decreases |x|
  {
    var s := x + (" " + y);
    if x == "" {
      assert s == " " + y && s[1..] == y;
    } else {
      MarkerApart(x, y);
      assert s[1..] == x[1..] + (" " + y);
      LowestApart(x[1..], y);
    }
  }

  /** How much of the text the next step of replacing takes, and what it puts there. */
  function Taken(s: string, n: nat): (k: nat)
    requires s != ""
    ensures 1 <= k <= |s|
  {
    var m := MarkerAt(s);
    if m.Some? && m.value.number == n then m.value.size else 1
  }

  function Put(s: string, n: nat, v: Value): string
    requires s != ""
  {
    var m := MarkerAt(s);
    if m.Some? && m.value.number == n then (if m.value.local then v.local else v.plain) else [s[0]]
  }

  lemma ReplaceStep(s: string, n: nat, v: Value)
    requires s != ""
    ensures Replace(s, n, v) == Put(s, n, v) + Replace(s[Taken(s, n)..], n, v)
  {
  }

  lemma StepApart(x: string, y: string, n: nat, v: Value)
    requires x != ""
    ensures var s := x + (" " + y);
      Taken(s, n) == Taken(x, n) && Put(s, n, v) == Put(x, n, v)
      && s[Taken(x, n)..] == x[Taken(x, n)..] + (" " + y)
  {
    MarkerApart(x, y);
  }

  lemma {:induction false} ReplaceApart(x: string, y: string, n: nat, v: Value)
    ensures Replace(x + (" " + y), n, v) == Replace(x, n, v) + (" " + Replace(y, n, v))
    decreases |x|
  {
    if x == "" { BlankFirst(y, n, v); } else {
      var k := Taken(x, n);
      StepApart(x, y, n, v);
      ReplaceStep(x + (" " + y), n, v);
      ReplaceStep(x, n, v);
      ReplaceApart(x[k..], y, n, v);
      Regroup(Put(x, n, v), Replace(x[k..], n, v), " " + Replace(y, n, v));
    }
  }

  lemma BlankFirst(y: string, n: nat, v: Value)
    ensures Replace("" + (" " + y), n, v) == "" + (" " + Replace(y, n, v))
  {
    var s := "" + (" " + y);
    assert s == " " + y && s[1..] == y && MarkerAt(s) == None;
  }

  lemma Regroup(a: string, b: string, c: string)
    ensures a + (b + c) == (a + b) + c
  {
  }

  // ---- texts in which nothing is replaced ----

  lemma RestFree(s: string)
    requires s != "" && '%' !in s
    ensures s[0] != '%' && '%' !in s[1..]
  {
    assert s[0] in s && forall c <- s[1..] :: c in s;
  }

  lemma {:induction false} NoPercent(s: string)
    requires '%' !in s
    ensures Lowest(s) == NO_MARKER
  {
    if s != "" {
      RestFree(s);
      NoPercent(s[1..]);
    }
  }

  lemma {:induction false} NothingReplaced(s: string, n: nat, v: Value)
    requires n < Lowest(s)
    ensures Replace(s, n, v) == s
  {
    if s != "" {
      NothingReplaced(s[1..], n, v);
      assert s == [s[0]] + s[1..];
    }
  }

  lemma OneOn(c: char, u: string, w: string)
    ensures ([c] + u) + w == [c] + (u + w) && (([c] + u) + w)[0] == c && (([c] + u) + w)[1..] == u + w
  {
  }

  lemma {:induction false} AfterPlain(u: string, w: string, n: nat, v: Value)
    requires '%' !in u
    ensures Replace(u + w, n, v) == u + Replace(w, n, v) && Lowest(u + w) == Lowest(w)
    decreases |u|
  {
    if u == "" {
      assert u + w == w && u + Replace(w, n, v) == Replace(w, n, v);
    } else {
      RestFree(u);
      assert u == [u[0]] + u[1..];
      OneOn(u[0], u[1..], w);
      OneOn(u[0], u[1..], Replace(w, n, v));
      AfterPlain(u[1..], w, n, v);
    }
  }

  // ---- a replaced marker leaves its trace ----

  predicate Begins(v: Value) { v.plain != "" && v.local != "" && v.plain[0] != '%' && v.local[0] != '%' }

  /** At `p` the text has lost the percent sign that was wanted, and agrees before. */
  predicate SpoiledAt(s: string, want: string, p: nat) {
    p < |s| && p < |want| && s[..p] == want[..p] && want[p] == '%' && s[p] != '%'
  }

  ghost predicate Spoiled(s: string, want: string) { exists p :: SpoiledAt(s, want, p) }

  lemma OneFurther(c: char, s: string, want: string, p: nat)
    requires want != "" && want[0] == c && SpoiledAt(s, want[1..], p)
    ensures Spoiled([c] + s, want)
  {
    var n := [c] + s;
    assert n[..p + 1] == [c] + s[..p] && want[..p + 1] == [c] + want[1..][..p];
    assert SpoiledAt(n, want, p + 1);
  }

  lemma AtOnce(s: string, want: string)
    requires s != "" && s[0] != '%' && want != "" && want[0] == '%'
    ensures Spoiled(s, want)
  {
    assert SpoiledAt(s, want, 0);
  }

  lemma {:induction false} Spoils(s: string, v: Value)
    requires Begins(v) && Lowest(s) < NO_MARKER
    ensures Spoiled(Replace(s, Lowest(s), v), s)
  {
    HasMarker(s, Lowest(s), v);
  }

  lemma {:induction false} HasMarker(s: string, n: nat, v: Value)
    requires Begins(v) && Lowest(s) == n < NO_MARKER
    ensures Spoiled(Replace(s, n, v), s)
  {
    var m := MarkerAt(s);
    if m.Some? && m.value.number == n {
      AtOnce(Replace(s, n, v), s);
    } else {
      HasMarker(s[1..], n, v);
      var p :| SpoiledAt(Replace(s[1..], n, v), s[1..], p);
      OneFurther(s[0], Replace(s[1..], n, v), s, p);
    }
  }

  lemma {:induction false} StaysAt(s: string, want: string, p: nat, n: nat, v: Value)
    requires Begins(v) && SpoiledAt(s, want, p)
    ensures Spoiled(Replace(s, n, v), want)
    decreases p
  {
    var m := MarkerAt(s);
    if p == 0 {
      AtOnce(Replace(s, n, v), want);
    } else {
      assert s[0] == s[..p][0] == want[..p][0] == want[0];
      if m.Some? && m.value.number == n {
        AtOnce(Replace(s, n, v), want);
      } else {
        assert s[1..][..p - 1] == s[..p][1..] && want[1..][..p - 1] == want[..p][1..];
        StaysAt(s[1..], want[1..], p - 1, n, v);
        var q :| SpoiledAt(Replace(s[1..], n, v), want[1..], q);
        OneFurther(s[0], Replace(s[1..], n, v), want, q);
      }
    }
  }

  lemma StaysSpoiled(s: string, want: string, n: nat, v: Value)
    requires Begins(v) && Spoiled(s, want)
    ensures Spoiled(Replace(s, n, v), want)
  {
    var p :| SpoiledAt(s, want, p);
    StaysAt(s, want, p, n, v);
  }

  // ---- the line of a candidate ----

  /** The fields that change while the line is built: the first, and those that begin as markers. */
  datatype Line = Line(first: string, priority: string, address: string, port: string, kind: string)

  function After(x: string, rest: string): string { x + (" " + rest) }

  function LineText(l: Line): string {
    After(l.first, After("1", After("UDP", After(l.priority, After(l.address,
      After(l.port, After("typ", l.kind)))))))
  }

  function LineLowest(l: Line): nat {
    Min(Lowest(l.first), Min(Lowest(l.priority), Min(Lowest(l.address), Min(Lowest(l.port), Lowest(l.kind)))))
  }

  function LineReplace(l: Line, n: nat, v: Value): Line {
    Line(Replace(l.first, n, v), Replace(l.priority, n, v), Replace(l.address, n, v), Replace(l.port, n, v),
         Replace(l.kind, n, v))
  }

  lemma Fixed(n: nat, v: Value)
    ensures Lowest("1") == Lowest("UDP") == Lowest("typ") == NO_MARKER
    ensures n < NO_MARKER ==>
      Replace("1", n, v) == "1" && Replace("UDP", n, v) == "UDP" && Replace("typ", n, v) == "typ"
  {
    NoPercent("1");
    NoPercent("UDP");
    NoPercent("typ");
    if n < NO_MARKER {
      NothingReplaced("1", n, v);
      NothingReplaced("UDP", n, v);
      NothingReplaced("typ", n, v);
    }
  }

  lemma LowestOfLine(l: Line)
    ensures Lowest(LineText(l)) == LineLowest(l)
  {
    Fixed(0, Literal(""));
    var e := After("typ", l.kind);
    var d := After(l.port, e);
    var c := After(l.address, d);
    var b := After(l.priority, c);
    var a := After("UDP", b);
    LowestApart("typ", l.kind);
    LowestApart(l.port, e);
    LowestApart(l.address, d);
    LowestApart(l.priority, c);
    LowestApart("UDP", b);
    LowestApart("1", a);
    LowestApart(l.first, After("1", a));
  }

  lemma ReplaceInLine(l: Line, n: nat, v: Value)
    requires n < NO_MARKER
    ensures Replace(LineText(l), n, v) == LineText(LineReplace(l, n, v))
  {
    Fixed(n, v);
    var e := After("typ", l.kind);
    var d := After(l.port, e);
    var c := After(l.address, d);
    var b := After(l.priority, c);
    var a := After("UDP", b);
    ReplaceApart("typ", l.kind, n, v);
    ReplaceApart(l.port, e, n, v);
    ReplaceApart(l.address, d, n, v);
    ReplaceApart(l.priority, c, n, v);
    ReplaceApart("UDP", b, n, v);
    ReplaceApart("1", a, n, v);
    ReplaceApart(l.first, After("1", a), n, v);
  }

  function LineArg(l: Line, v: Value): Line {
    if LineLowest(l) == NO_MARKER then l else LineReplace(l, LineLowest(l), v)
  }

  /** One more value in the line. */
  lemma ArgOfLine(l: Line, v: Value)
    ensures Arg(LineText(l), v) == LineText(LineArg(l, v))
  {
    LowestOfLine(l);
    if LineLowest(l) < NO_MARKER { ReplaceInLine(l, LineLowest(l), v); }
  }

  lemma Marks(v: Value)
    ensures Lowest("%1") == 1 && Lowest("%2") == 2 && Lowest("%3") == 3 && Lowest("%4") == 4 && Lowest("%5") == 5
    ensures Replace("%1", 1, v) == v.plain && Replace("%2", 2, v) == v.plain && Replace("%3", 3, v) == v.plain
    ensures Replace("%4", 4, v) == v.plain && Replace("%5", 5, v) == v.plain
  {
    MarkIs("%1", v);
    MarkIs("%2", v);
    MarkIs("%3", v);
    MarkIs("%4", v);
    MarkIs("%5", v);
  }

  lemma MarkIs(s: string, v: Value)
    requires |s| == 2 && s[0] == '%' && Digit(s[1])
    ensures Lowest(s) == DigitValue(s[1]) && Replace(s, DigitValue(s[1]), v) == v.plain
  {
    assert MarkerAt(s) == Some(Marker(DigitValue(s[1]), 2, false));
    NoPercent(s[1..]);
    assert s[2..] == "" && v.plain + "" == v.plain;
  }

  const MARKED := Line("candidate:%1", "%2", "%3", "%4", "%5")

  /** With the foundation in place. */
  function Founded(foundation: string): Line { Line(PREFIX + foundation, "%2", "%3", "%4", "%5") }

  lemma TemplateIsLine()
    ensures TEMPLATE == LineText(MARKED)
  {
  }

  lemma FoundationFirst(foundation: string)
    ensures Arg(TEMPLATE, Literal(foundation)) == LineText(Founded(foundation))
  {
    var v := Literal(foundation);
    TemplateIsLine();
    Marks(v);
    assert "candidate:%1" == PREFIX + "%1";
    AfterPlain(PREFIX, "%1", 1, v);
    NothingReplaced("%2", 1, v);
    NothingReplaced("%3", 1, v);
    NothingReplaced("%4", 1, v);
    NothingReplaced("%5", 1, v);
    ArgOfLine(MARKED, v);
  }
}
