/** The log formatter: the index scanner over the pattern, proved against the pattern grammar, and
    the items it builds. */
module LogFormatters {
  import opened PatternGrammar

  /** A literal item, or the item of one of the twelve directive letters. */
  datatype FormatItem = StringItem(text: string) | LetterItem(letter: char, fmt: string)

  function ItemOf(e: Entry): FormatItem {
    match e
    case Literal(s) => StringItem(s)
    case Directive(name, fmt) =>
      if KnownName(name) then LetterItem(name[0], fmt) else StringItem("<<error_format %" + name + ">>")
  }

  function ItemsOf(es: seq<Entry>): (r: seq<FormatItem>)
    ensures |r| == |es|
  {
    seq(|es|, i requires 0 <= i < |es| => ItemOf(es[i]))
  }

  /** The item of an entry: its text; the item of a known letter with its format text; or an error text
      that shows the unknown name. */
  predicate ItemFor(item: FormatItem, e: Entry) {
    match e
    case Literal(s) => item == StringItem(s)
    case Directive(name, fmt) =>
      if |name| == 1 && Known(name[0]) then item == LetterItem(name[0], fmt)
      else item == StringItem("<<error_format %" + name + ">>")
  }

  /** One item for each entry, in order. */
  predicate ItemsFor(items: seq<FormatItem>, es: seq<Entry>) {
    |items| == |es| && forall i :: 0 <= i < |es| ==> ItemFor(items[i], es[i])
  }

  /** The item of a token in a pattern without an error. */
  predicate Renders(item: FormatItem, t: Token) {
    match t
    case Text(s) => item == StringItem(s)
    case Plain(n) => |n| == 1 && item == LetterItem(n[0], "")
    case Braced(n, f) => |n| == 1 && item == LetterItem(n[0], f)
    case Open => false
  }

  /** One item for each token, in order. */
  predicate RendersAll(items: seq<FormatItem>, ts: seq<Token>) {
    |items| == |ts| && forall i :: 0 <= i < |ts| ==> Renders(items[i], ts[i])
  }

  lemma RenderOne(e: Entry, t: Token)
    ensures ItemFor(ItemOf(e), e) && (EntryFor(e, t) && TokenKnown(t) ==> Renders(ItemOf(e), t))
  {}

  lemma RenderEach(es: seq<Entry>, ts: seq<Token>)
    requires Aligned(es, ts) && forall t :: t in ts ==> TokenKnown(t)
    ensures RendersAll(ItemsOf(es), ts)
  {
    forall i | 0 <= i < |ts| ensures Renders(ItemsOf(es)[i], ts[i]) {
      assert ts[i] in ts;
      RenderOne(es[i], ts[i]);
    }
  }

  lemma ItemsForEach(es: seq<Entry>)
    ensures ItemsFor(ItemsOf(es), es)
  {}

  /** The items of a pattern are those of what its tokens stand for; without an error, those of the
      tokens. */
  lemma TokensRendered(ts: seq<Token>)
    requires WellFormed(ts)
    ensures ItemsFor(ItemsOf(Parse(Print(ts)).entries), Entries(ts))
    ensures Valid(ts) ==> RendersAll(ItemsOf(Parse(Print(ts)).entries), ts)
  {
    PrintParse(ts);
    ItemsForEach(Entries(ts));
    if Valid(ts) {
      ValidEntries(ts);
      RenderEach(Entries(ts), ts);
    }
  }

  /** Items are opaque functions from an event to text; formatting concatenates them. */
  function FormatWith(items: seq<FormatItem>, show: FormatItem -> string): string {
    if items == [] then "" else show(items[0]) + FormatWith(items[1..], show)
  }

  lemma {:induction false} FormatSnoc(items: seq<FormatItem>, n: nat, show: FormatItem -> string)
    requires n < |items|
    ensures FormatWith(items[..n + 1], show) == FormatWith(items[..n], show) + show(items[n])
  {
    if n > 0 {
      assert items[..n + 1][1..] == items[1..][..n] && items[..n][1..] == items[1..][..n - 1];
      FormatSnoc(items[1..], n - 1, show);
    }
  }

  /** Formatting is determined by what each item shows: nothing for no items, the item's text for one,
      and one after the other for two lists. */
  lemma {:induction false} FormatJoins(p: seq<FormatItem>, q: seq<FormatItem>, show: FormatItem -> string)
    ensures FormatWith([], show) == ""
    ensures |p| == 1 ==> FormatWith(p, show) == show(p[0])
    ensures FormatWith(p + q, show) == FormatWith(p, show) + FormatWith(q, show)
  {
    if p == [] {
      assert p + q == q;
    } else {
      assert (p + q)[1..] == p[1..] + q;
      FormatJoins(p[1..], q, show);
    }
  }

  lemma Regroup(a: seq<Entry>, b: seq<Entry>, c: seq<Entry>, d: seq<Entry>)
    ensures a + (b + c + d) == (a + b + c) + d
  {}

  /** `vec` has been emitted, `pending` is the literal text in hand and `q` is still to be read. */
  ghost predicate Reads(p: string, vec: seq<Entry>, error: bool, q: string, pending: string) {
    var rest := ParseRest(q, pending);
    vec + rest.entries == Parse(p).entries && (error || rest.unclosed <==> Parse(p).unclosed)
  }

  predicate AtDirective(q: string) {
    q != "" && q[0] == '%' && !(|q| > 1 && q[1] == '%')
  }

  lemma AfterChar(p: string, vec: seq<Entry>, error: bool, q: string, pending: string)
    requires Reads(p, vec, error, q, pending) && q != "" && !AtDirective(q)
    ensures Reads(p, vec, error, q[1..], pending + [q[0]])
  {}

  lemma AfterRead(p: string, vec: seq<Entry>, error: bool, q: string, pending: string)
    requires Reads(p, vec, error, q, pending) && AtDirective(q) && ReadDirective(q[1..]).Read?
    ensures var r := ReadDirective(q[1..]);
      Reads(p, vec + Flush(pending) + [Directive(r.name, r.fmt)], error, q[1 + r.length..], "")
  {
    var r := ReadDirective(q[1..]);
    Regroup(vec, Flush(pending), [Directive(r.name, r.fmt)], ParseRest(q[1 + r.length..], "").entries);
  }

  lemma AfterUnclosed(p: string, vec: seq<Entry>, error: bool, q: string, pending: string)
    requires Reads(p, vec, error, q, pending) && AtDirective(q) && ReadDirective(q[1..]).Unclosed?
    ensures Reads(p, vec + [PATTERN_ERROR], true, q[1..], pending)
  {
    Regroup(vec, [PATTERN_ERROR], [], ParseRest(q[1..], pending).entries);
    assert [PATTERN_ERROR] + [] == [PATTERN_ERROR] && vec + [PATTERN_ERROR] + [] == vec + [PATTERN_ERROR];
  }

  /** The same at positions of the pattern: a directive was read from `i` to `n`. */
  lemma ReadAt(p: string, vec: seq<Entry>, error: bool, i: nat, pending: string, str: string, fmt: string, n: nat, vec': seq<Entry>)
    requires i < n <= |p| && AtDirective(p[i..]) && Reads(p, vec, error, p[i..], pending)
    requires ReadDirective(p[i + 1..]).Read?
    requires ReadDirective(p[i + 1..]) == Read(str, fmt, ReadDirective(p[i + 1..]).braced, n - i - 1)
    requires vec' == (if pending != "" then vec + [Literal(pending)] else vec) + [Directive(str, fmt)]
    ensures Reads(p, vec', error, p[n..], "")
  {
    assert p[i..][1..] == p[i + 1..] && p[i..][1 + (n - i - 1)..] == p[n..];
    AfterRead(p, vec, error, p[i..], pending);
    assert vec + [] == vec;
  }

  /** A brace group opened after `i` has no end. */
  lemma UnclosedAt(p: string, vec: seq<Entry>, error: bool, i: nat, pending: string)
    requires i < |p| && AtDirective(p[i..]) && Reads(p, vec, error, p[i..], pending)
    requires ReadDirective(p[i + 1..]).Unclosed?
    ensures Reads(p, vec + [PATTERN_ERROR], true, p[i + 1..], pending)
  {
    assert p[i..][1..] == p[i + 1..];
    AfterUnclosed(p, vec, error, p[i..], pending);
  }

  lemma KnownSnoc(es: seq<Entry>, n: nat)
    requires n < |es|
    ensures AllKnown(es[..n + 1]) <==> AllKnown(es[..n]) && EntryKnown(es[n])
  {
    assert es[..n + 1] == es[..n] + [es[n]];
    assert es[n] in es[..n + 1];
    assert forall e :: e in es[..n] ==> e in es[..n + 1];
  }

  class LogFormatter {
    const pattern: string
    var items: seq<FormatItem>
    var error: bool

    /** The error flag is raised exactly for the patterns outside the grammar. The items of a pattern
        without an error are those of its tokens; those of any pattern are what its tokens stand for. */
    constructor (pattern: string)
      ensures this.pattern == pattern
      ensures forall ts :: Valid(ts) && Print(ts) == pattern ==> RendersAll(items, ts)
      ensures forall ts :: WellFormed(ts) && Print(ts) == pattern ==> ItemsFor(items, Entries(ts))
      ensures error <==> !InGrammar(pattern)
    {
      this.pattern := pattern;
      items := [];
      error := false;
      new;
      Init();
      AcceptsGrammar(pattern);
      forall ts | WellFormed(ts) && Print(ts) == pattern
        ensures ItemsFor(items, Entries(ts)) && (Valid(ts) ==> RendersAll(items, ts))
      {
        TokensRendered(ts);
      }
    }

    /** The inner loop: reads a directive after the '%' at `i`. On return, `status` is 1 exactly when
        a brace group was opened and not closed. */
    method ScanDirective(i: nat) returns (status: int, str: string, fmt: string, n: nat)
      requires i < |pattern|
      ensures status == 0 || status == 1
      ensures status == 1 <==> ReadDirective(pattern[i + 1..]).Unclosed?
      ensures status == 0 ==> i < n <= |pattern|
      ensures status == 0 ==>
        ReadDirective(pattern[i + 1..]) == Read(str, fmt, ReadDirective(pattern[i + 1..]).braced, n - i - 1)
    {
      ghost var q := pattern[i + 1..];
      ghost var e := NameLength(q);
      n := i + 1;
      status := 0;
      var fmtBegin := 0;
      str, fmt := "", "";
      while n < |pattern|
        invariant i + 1 <= n <= |pattern| && (status == 0 || status == 1)
        invariant status == 0 ==> n <= i + 1 + e && fmt == "" && str == (if i + 1 < n == |pattern| then q else "")
        invariant status == 1 ==>
          && e < |q| && q[e] == '{' && fmtBegin == i + 1 + e < n && fmt == ""
          && (n < |pattern| ==> str == q[..e])
          && n <= i + 1 + e + 1 + ClosePosition(q[e + 1..])
      {
        assert pattern[n] == q[n - i - 1];
        if status == 0 && !IsAlpha(pattern[n]) && pattern[n] != '{' && pattern[n] != '}' {
          str := pattern[i + 1..n];
          assert e == n - i - 1;
          break;
        }
        if status == 0 {
          if pattern[n] == '{' {
            assert e == n - i - 1;
            str := pattern[i + 1..n];
            status := 1;
            fmtBegin := n;
            n := n + 1;
            continue;
          }
        } else if status == 1 {
          assert pattern[n] == q[e + 1..][n - i - 1 - e - 1];
          if pattern[n] == '}' {
            assert ClosePosition(q[e + 1..]) == n - i - 1 - e - 1;
            fmt := pattern[fmtBegin + 1..n];
            assert fmt == q[e + 1..n - i - 1];
            status := 0;
            n := n + 1;
            break;
          }
        }
        n := n + 1;
        if n == |pattern| {
          if str == "" {
            str := pattern[i + 1..];
          }
        }
      }
    }

    /** The rest of an iteration that found a directive: pending text is emitted before it; an open
        brace group emits an error entry and is read again as text. */
    method TakeDirective(vec: seq<Entry>, nstr: string, i: nat) returns (vec': seq<Entry>, nstr': string, next: nat)
      requires i < |pattern| && AtDirective(pattern[i..]) && Reads(pattern, vec, error, pattern[i..], nstr)
      modifies this`error
      ensures i < next <= |pattern| && Reads(pattern, vec', error, pattern[next..], nstr')
    {
      var status, str, fmt, n := ScanDirective(i);
      vec', nstr' := vec, nstr;
      next := i;
      if status == 0 {
        if nstr' != "" {
          vec' := vec' + [Literal(nstr')];
          nstr' := "";
        }
        vec' := vec' + [Directive(str, fmt)];
        ReadAt(pattern, vec, error, i, nstr, str, fmt, n, vec');
        next := n - 1;
      } else if status == 1 {
        UnclosedAt(pattern, vec, error, i, nstr);
        error := true;
        vec' := vec' + [PATTERN_ERROR];
      }
      next := next + 1;
    }

    /** The outer loop over the pattern. It always advances, also after an open brace group. */
    method Scan() returns (vec: seq<Entry>)
      requires !error
      modifies this`error
      ensures vec == Parse(pattern).entries
      ensures error <==> Parse(pattern).unclosed
    {
      vec := [];
      var nstr := "";
      var i := 0;
      assert pattern[0..] == pattern;
      while i < |pattern|
        invariant 0 <= i <= |pattern|
        invariant Reads(pattern, vec, error, pattern[i..], nstr)
        decreases |pattern| - i
      {
        ghost var q := pattern[i..];
        assert q[1..] == pattern[i + 1..];
        if !AtDirective(q) { AfterChar(pattern, vec, error, q, nstr); }
        if pattern[i] != '%' {
          nstr := nstr + [pattern[i]];
          i := i + 1;
          continue;
        }
        if i + 1 < |pattern| {
          if pattern[i + 1] == '%' {
            nstr := nstr + "%";
            i := i + 1;
            continue;
          }
        }
        vec, nstr, i := TakeDirective(vec, nstr, i);
      }
      if nstr != "" {
        vec := vec + [Literal(nstr)];
      }
    }

    /** The table lookup. */
    method BuildItems(vec: seq<Entry>)
      requires items == []
      modifies this
      ensures items == ItemsOf(vec) && ItemsFor(items, vec)
      ensures error <==> old(error) || !AllKnown(vec)
    {
      var i := 0;
      while i < |vec|
        invariant 0 <= i <= |vec|
        invariant items == ItemsOf(vec[..i])
        invariant error <==> old(error) || !AllKnown(vec[..i])
        decreases |vec| - i
      {
        KnownSnoc(vec, i);
        assert vec[..i + 1] == vec[..i] + [vec[i]];
        if vec[i].Literal? {
          items := items + [StringItem(vec[i].text)];
        } else if !KnownName(vec[i].name) {
          items := items + [StringItem("<<error_format %" + vec[i].name + ">>")];
          error := true;
        } else {
          items := items + [LetterItem(vec[i].name[0], vec[i].fmt)];
        }
        i := i + 1;
      }
      assert vec[..i] == vec;
    }

    method Init()
      requires items == [] && !error
      modifies this
      ensures items == ItemsOf(Parse(pattern).entries)
      ensures error <==> IsError(pattern)
    {
      var vec := Scan();
      BuildItems(vec);
    }

    /** Formatting an event concatenates the output of the items in order. */
    method Format(show: FormatItem -> string) returns (out: string)
      ensures out == FormatWith(items, show)
    {
      out := "";
      var i := 0;
      while i < |items|
        invariant 0 <= i <= |items|
        invariant out == FormatWith(items[..i], show)
      {
        FormatSnoc(items, i, show);
        out := out + show(items[i]);
        i := i + 1;
      }
      assert items[..i] == items;
    }
  }
}
