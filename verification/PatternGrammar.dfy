/** The log pattern language: what the parser computes, as functions on the text still to be read,
    and the grammar it accepts, as token lists. */
module PatternGrammar {
  /** One element of the parser's intermediate vector. */
  datatype Entry = Literal(text: string) | Directive(name: string, fmt: string)

  /** What parsing produces: the vector, and whether a brace group was left open. */
  datatype Parsed = Parsed(entries: seq<Entry>, unclosed: bool)

  /** `isalpha` in the C locale. */
  predicate IsAlpha(c: char) {
    'A' <= c <= 'Z' || 'a' <= c <= 'z'
  }

  predicate Known(c: char) {
    c in {'m', 'p', 'r', 'c', 't', 'n', 'd', 'f', 'l', 'T', 'F', 'N'}
  }

  predicate KnownName(s: string) {
    |s| == 1 && Known(s[0])
  }

  /** Characters that the scan of a directive name runs over. */
  predicate InName(c: char) {
    IsAlpha(c) || c == '}'
  }

  /** The length of the name at the start of `q`. */
  function NameLength(q: string): (n: nat)
    ensures n <= |q|
    ensures forall k :: 0 <= k < n ==> InName(q[k])
    ensures n < |q| ==> !InName(q[n])
  {
    if q == "" || !InName(q[0]) then 0 else 1 + NameLength(q[1..])
  }

  /** The position of the first closing brace, or `|q|`. */
  function ClosePosition(q: string): (n: nat)
    ensures n <= |q|
    ensures forall k :: 0 <= k < n ==> q[k] != '}'
    ensures n < |q| ==> q[n] == '}'
  {
    if q == "" || q[0] == '}' then 0 else 1 + ClosePosition(q[1..])
  }

  /** A directive read after its '%': the name, the format text, and how much of the text it took; or
      a brace group without an end. */
  datatype Read = Read(name: string, fmt: string, braced: bool, length: nat) | Unclosed

  function ReadDirective(q: string): (r: Read)
    ensures r.Read? ==> r.length <= |q|
  {
    var e := NameLength(q);
    if e < |q| && q[e] == '{' then
      var c := ClosePosition(q[e + 1..]);
      if e + 1 + c < |q| then Read(q[..e], q[e + 1..e + 1 + c], true, e + 1 + c + 1) else Unclosed
    else Read(q[..e], "", false, e)
  }

  function Flush(pending: string): seq<Entry> {
    if pending == "" then [] else [Literal(pending)]
  }

  const PATTERN_ERROR := Literal("<<pattern_error>>")

  /** The parse of the remaining text `q` with literal text `pending` not yet emitted. */
  function ParseRest(q: string, pending: string): Parsed
    decreases |q|
  {
    if q == "" then Parsed(Flush(pending), false)
    else if q[0] != '%' then ParseRest(q[1..], pending + [q[0]])
    else if |q| > 1 && q[1] == '%' then ParseRest(q[1..], pending + "%")
    else
      match ReadDirective(q[1..])
      case Read(name, fmt, _, length) =>
        var rest := ParseRest(q[1 + length..], "");
        rest.(entries := Flush(pending) + [Directive(name, fmt)] + rest.entries)
      case Unclosed =>
        var rest := ParseRest(q[1..], pending);
        Parsed([PATTERN_ERROR] + rest.entries, true)
  }

  function Parse(p: string): Parsed {
    ParseRest(p, "")
  }

  predicate EntryKnown(e: Entry) {
    e.Directive? ==> KnownName(e.name)
  }

  predicate AllKnown(es: seq<Entry>) {
    forall e :: e in es ==> EntryKnown(e)
  }

  /** The error flag: an open brace group or an unknown directive. */
  predicate IsError(p: string) {
    Parse(p).unclosed || !AllKnown(Parse(p).entries)
  }

  // ---------------------------------------------------------------- the grammar

  /** Literal text; a directive without and with a brace group; a '%' whose brace group has no end. */
  datatype Token = Text(text: string) | Plain(name: string) | Braced(name: string, fmt: string) | Open

  function Show(t: Token): string {
    match t
    case Text(s) => s
    case Plain(n) => "%" + n
    case Braced(n, f) => "%" + n + "{" + f + "}"
    case Open => "%"
  }

  function Print(ts: seq<Token>): string {
    if ts == [] then "" else Show(ts[0]) + Print(ts[1..])
  }

  predicate IsName(s: string) {
    forall c :: c in s ==> InName(c)
  }

  /** Every '%' of `s` stands before another '%' when `next` follows `s`. */
  predicate PercentsDoubled(s: string, next: string) {
    forall j :: 0 <= j < |s| && s[j] == '%' ==> j + 1 < |s + next| && (s + next)[j + 1] == '%'
  }

  /** Text that may follow a bare directive. */
  predicate Delimited(next: string) {
    next == "" || !(InName(next[0]) || next[0] == '{')
  }

  /** The text begins with a name and a brace group that has no end. */
  predicate LeftOpen(s: string) {
    exists e :: 0 <= e < |s| && s[e] == '{' && IsName(s[..e]) && '}' !in s[e + 1..]
  }

  /** Token `t` can be told apart from `rest`: text is not empty and not before other text, and its '%'s
      stand before another; a bare directive is delimited; format text has no closing brace. */
  predicate Fits(t: Token, rest: seq<Token>) {
    var next := Print(rest);
    match t
    case Text(s) => s != "" && (rest != [] ==> !rest[0].Text?) && PercentsDoubled(s, next)
    case Plain(n) => IsName(n) && Delimited(next) && (n == "" && next != "" ==> next[0] != '%')
    case Braced(n, f) => IsName(n) && '}' !in f
    case Open => LeftOpen(next)
  }

  predicate WellFormed(ts: seq<Token>) {
    ts == [] || (WellFormed(ts[1..]) && Fits(ts[0], ts[1..]))
  }

  predicate TokenKnown(t: Token) {
    !t.Open? && (!t.Text? ==> KnownName(t.name))
  }

  /** The patterns without an error: directives are known and brace groups end. */
  predicate Valid(ts: seq<Token>) {
    WellFormed(ts) && forall t :: t in ts ==> TokenKnown(t)
  }

  /** What a token list stands for, with literal text not yet emitted. Text is emitted before the next
      directive, the error for an open brace group before the text at hand. */
  function EntriesAfter(ts: seq<Token>, pending: string): seq<Entry>
    decreases |ts|
  {
    if ts == [] then Flush(pending)
    else
      match ts[0]
      case Text(s) => EntriesAfter(ts[1..], pending + s)
      case Plain(n) => Flush(pending) + [Directive(n, "")] + EntriesAfter(ts[1..], "")
      case Braced(n, f) => Flush(pending) + [Directive(n, f)] + EntriesAfter(ts[1..], "")
      case Open => [Literal("<<pattern_error>>")] + EntriesAfter(ts[1..], pending)
  }

  function Entries(ts: seq<Token>): seq<Entry> {
    EntriesAfter(ts, "")
  }

  // ---------------------------------------------------------------- print, then parse

  /** Text whose '%'s are doubled is taken over literally. */
  lemma {:induction false} TextIsLiteral(s: string, next: string, pending: string)
    requires PercentsDoubled(s, next)
    ensures ParseRest(s + next, pending) == ParseRest(next, pending + s)
    decreases |s|
  {
    if s == "" {
      assert s + next == next && pending + s == pending;
    } else {
      var q := s + next;
      assert q[1..] == s[1..] + next;
      assert PercentsDoubled(s[1..], next) by {
        forall j | 0 <= j < |s[1..]| && s[1..][j] == '%' ensures (s[1..] + next)[j + 1..] != "" && (s[1..] + next)[j + 1] == '%' {
          assert s[j + 1] == '%' && (s + next)[j + 2] == '%';
        }
      }
      TextIsLiteral(s[1..], next, pending + [s[0]]);
      assert pending + [s[0]] + s[1..] == pending + s;
    }
  }

  lemma {:induction false} NameLengthOf(n: string, next: string)
    requires IsName(n)
    ensures NameLength(n + next) == |n| + NameLength(next)
  {
    if n == "" {
      assert n + next == next;
    } else {
      assert n[0] in n && (n + next)[1..] == n[1..] + next;
      NameLengthOf(n[1..], next);
    }
  }

  lemma {:induction false} CloseAfter(f: string, next: string)
    requires '}' !in f
    ensures ClosePosition(f + "}" + next) == |f|
  {
    var q := f + "}" + next;
    if f == "" {
      assert q[0] == '}';
    } else {
      assert f[0] in f && q[1..] == f[1..] + "}" + next;
      CloseAfter(f[1..], next);
    }
  }

  lemma {:induction false} NeverCloses(f: string)
    requires '}' !in f
    ensures ClosePosition(f) == |f|
  {
    if f != "" { NeverCloses(f[1..]); }
  }

  lemma ReadPlain(n: string, next: string)
    requires IsName(n) && Delimited(next)
    ensures ReadDirective(n + next) == Read(n, "", false, |n|)
  {
    NameLengthOf(n, next);
    assert NameLength(next) == 0;
    assert (n + next)[..|n|] == n;
  }

  lemma Parts(a: string, b: string)
    ensures (a + b)[..|a|] == a && (a + b)[|a|..] == b
  {}

  /** A name, and what follows it. */
  lemma NameFirst(n: string, tail: string)
    requires IsName(n) && tail != "" && tail[0] == '{'
    ensures NameLength(n + tail) == |n| && (n + tail)[..|n|] == n && (n + tail)[|n|] == '{' && (n + tail)[|n| + 1..] == tail[1..]
  {
    NameLengthOf(n, tail);
    Parts(n, tail);
    assert (n + tail)[|n|..][1..] == tail[1..];
  }

  /** The text of a brace group, from the brace on. */
  function Group(f: string, next: string): string {
    "{" + (f + "}" + next)
  }

  lemma ReadGroup(n: string, f: string, next: string)
    requires IsName(n) && '}' !in f
    ensures ReadDirective(n + Group(f, next)) == Read(n, f, true, |n| + 1 + |f| + 1)
  {
    var q, after := n + Group(f, next), f + "}" + next;
    assert Group(f, next)[1..] == after;
    NameFirst(n, Group(f, next));
    CloseAfter(f, next);
    assert q[|n| + 1..|n| + 1 + |f|] == q[|n| + 1..][..|f|] && after[..|f|] == f;
  }

  lemma GroupText(n: string, f: string, next: string)
    ensures n + "{" + f + "}" + next == n + Group(f, next)
  {}

  lemma ReadBraced(n: string, f: string, next: string)
    requires IsName(n) && '}' !in f
    ensures ReadDirective(n + "{" + f + "}" + next) == Read(n, f, true, |n| + 1 + |f| + 1)
  {
    ReadGroup(n, f, next);
    GroupText(n, f, next);
  }

  /** The name at the start of the text, whatever follows its brace. */
  lemma NameAt(s: string, e: nat)
    requires e < |s| && s[e] == '{' && IsName(s[..e])
    ensures NameLength(s) == e && (e > 0 ==> InName(s[0]))
  {
    assert s == s[..e] + s[e..];
    NameFirst(s[..e], s[e..]);
    if e > 0 { assert s[..e][0] in s[..e]; }
  }

  lemma ReadOpen(next: string)
    requires LeftOpen(next)
    ensures ReadDirective(next).Unclosed? && next[0] != '%'
  {
    var e :| 0 <= e < |next| && next[e] == '{' && IsName(next[..e]) && '}' !in next[e + 1..];
    NameAt(next, e);
    NeverCloses(next[e + 1..]);
  }

  function Prepend(es: seq<Entry>, r: Parsed): Parsed {
    Parsed(es + r.entries, r.unclosed)
  }

  lemma PlainStep(n: string, next: string, s: string)
    requires IsName(n) && Delimited(next) && (n == "" && next != "" ==> next[0] != '%')
    ensures ParseRest("%" + n + next, s) == Prepend(Flush(s) + [Directive(n, "")], ParseRest(next, ""))
  {
    var q := "%" + n + next;
    assert q[1..] == n + next && q[1 + |n|..] == next;
    assert n != "" ==> n[0] in n && q[1] == n[0];
    ReadPlain(n, next);
  }

  lemma BracedStep(n: string, f: string, next: string, s: string)
    requires IsName(n) && '}' !in f
    ensures ParseRest("%" + n + "{" + f + "}" + next, s) == Prepend(Flush(s) + [Directive(n, f)], ParseRest(next, ""))
  {
    var q := "%" + n + "{" + f + "}" + next;
    assert q[1..] == n + "{" + f + "}" + next && q[1 + |n| + 1 + |f| + 1..] == next;
    assert n != "" ==> n[0] in n && q[1] == n[0];
    ReadBraced(n, f, next);
  }

  lemma OpenStep(next: string, s: string)
    requires LeftOpen(next)
    ensures ParseRest("%" + next, s) == Parsed([PATTERN_ERROR] + ParseRest(next, s).entries, true)
  {
    assert ("%" + next)[1..] == next;
    ReadOpen(next);
  }

  /** Every well-formed token list prints to a pattern that parses to what the list stands for, after
      the literal text that is pending. */
  lemma {:induction false} ParsesTo(ts: seq<Token>, s: string)
    requires WellFormed(ts)
    ensures ParseRest(Print(ts), s) == Parsed(EntriesAfter(ts, s), Open in ts)
    decreases |ts|
  {
    if ts != [] {
      var rest, next := ts[1..], Print(ts[1..]);
      assert Open in ts <==> ts[0] == Open || Open in rest;
      match ts[0]
      case Text(x) =>
        TextIsLiteral(x, next, s);
        ParsesTo(rest, s + x);
      case Plain(n) =>
        PlainStep(n, next, s);
        ParsesTo(rest, "");
      case Braced(n, f) =>
        BracedStep(n, f, next, s);
        ParsesTo(rest, "");
      case Open =>
        OpenStep(next, s);
        ParsesTo(rest, s);
    }
  }

  /** Printing and parsing: every pattern of the grammar, with or without an error, parses to exactly the
      entries of its tokens. */
  lemma PrintParse(ts: seq<Token>)
    requires WellFormed(ts)
    ensures Parse(Print(ts)) == Parsed(Entries(ts), Open in ts)
  {
    ParsesTo(ts, "");
  }

  // ---------------------------------------------------------------- which token lists have no error

  lemma KnownParts(s: string, e: Entry, es: seq<Entry>)
    ensures AllKnown(Flush(s)) && (AllKnown(Flush(s) + [e] + es) <==> EntryKnown(e) && AllKnown(es))
    ensures AllKnown([e] + es) <==> EntryKnown(e) && AllKnown(es)
  {
    assert forall x :: x in Flush(s) + [e] + es <==> x in Flush(s) || x == e || x in es;
    assert forall x :: x in [e] + es <==> x == e || x in es;
  }

  predicate NamesKnown(ts: seq<Token>) {
    forall t :: t in ts ==> t.Open? || TokenKnown(t)
  }

  lemma NamesKnownFirst(ts: seq<Token>)
    requires ts != []
    ensures NamesKnown(ts) <==> (ts[0].Open? || TokenKnown(ts[0])) && NamesKnown(ts[1..])
  {
    assert forall t :: t in ts <==> t == ts[0] || t in ts[1..];
  }

  /** All directive names are known exactly when those of the entries are. */
  lemma {:induction false} KnownTokens(ts: seq<Token>, s: string)
    ensures AllKnown(EntriesAfter(ts, s)) <==> NamesKnown(ts)
    decreases |ts|
  {
    if ts == [] {
      KnownParts(s, Literal(s), []);
    } else {
      var rest := ts[1..];
      NamesKnownFirst(ts);
      match ts[0]
      case Text(x) => KnownTokens(rest, s + x);
      case Plain(n) =>
        KnownTokens(rest, "");
        KnownParts(s, Directive(n, ""), EntriesAfter(rest, ""));
      case Braced(n, f) =>
        KnownTokens(rest, "");
        KnownParts(s, Directive(n, f), EntriesAfter(rest, ""));
      case Open =>
        KnownTokens(rest, s);
        KnownParts(s, PATTERN_ERROR, EntriesAfter(rest, s));
    }
  }

  lemma ErrorExactly(ts: seq<Token>)
    requires WellFormed(ts)
    ensures IsError(Print(ts)) <==> !Valid(ts)
  {
    PrintParse(ts);
    KnownTokens(ts, "");
  }

  /** Entry `e` is the one of token `t`. */
  predicate EntryFor(e: Entry, t: Token) {
    match t
    case Text(s) => e == Literal(s)
    case Plain(n) => e == Directive(n, "")
    case Braced(n, f) => e == Directive(n, f)
    case Open => false
  }

  predicate Aligned(es: seq<Entry>, ts: seq<Token>) {
    |es| == |ts| && forall i :: 0 <= i < |ts| ==> EntryFor(es[i], ts[i])
  }

  lemma AlignedFirst(e: Entry, es: seq<Entry>, ts: seq<Token>)
    requires ts != [] && EntryFor(e, ts[0]) && Aligned(es, ts[1..])
    ensures Aligned([e] + es, ts)
  {
    forall i | 0 <= i < |ts| ensures EntryFor(([e] + es)[i], ts[i]) {
      if i > 0 { assert ts[i] == ts[1..][i - 1] && ([e] + es)[i] == es[i - 1]; }
    }
  }

  /** A valid list stands for one entry for each token, in order. */
  lemma {:induction false} ValidEntries(ts: seq<Token>)
    requires Valid(ts)
    ensures Aligned(Entries(ts), ts)
    ensures ts == [] || !ts[0].Text? ==> forall s :: EntriesAfter(ts, s) == Flush(s) + Entries(ts)
    decreases |ts|
  {
    if ts != [] {
      var rest := ts[1..];
      assert ts[0] in ts && forall t :: t in rest ==> t in ts;
      ValidEntries(rest);
      match ts[0]
      case Text(x) =>
        assert "" + x == x && EntriesAfter(rest, x) == Flush(x) + Entries(rest);
        AlignedFirst(Literal(x), Entries(rest), ts);
      case Plain(n) => DirectiveAligned(ts, Directive(n, ""));
      case Braced(n, f) => DirectiveAligned(ts, Directive(n, f));
    }
  }

  lemma DirectiveAligned(ts: seq<Token>, d: Entry)
    requires ts != [] && EntryFor(d, ts[0]) && d.Directive? && Aligned(Entries(ts[1..]), ts[1..])
    ensures Aligned(Entries(ts), ts) && forall s :: EntriesAfter(ts, s) == Flush(s) + Entries(ts)
  {
    assert Flush("") + [d] + Entries(ts[1..]) == [d] + Entries(ts[1..]);
    AlignedFirst(d, Entries(ts[1..]), ts);
    forall s ensures EntriesAfter(ts, s) == Flush(s) + Entries(ts) {
      assert Flush(s) + [d] + Entries(ts[1..]) == Flush(s) + ([d] + Entries(ts[1..]));
    }
  }

  // ---------------------------------------------------------------- parse, then print

  /** The pending text as a token. */
  function Lit(pending: string): seq<Token> {
    if pending == "" then [] else [Text(pending)]
  }

  /** The token of an accepted directive. */
  function TokenRead(r: Read): Token {
    match r
    case Read(name, fmt, braced, _) => if braced then Braced(name, fmt) else Plain(name)
    case Unclosed => Open
  }

  /** What follows the first directive. */
  function AfterDirective(q: string): string
    requires q != ""
  {
    match ReadDirective(q[1..])
    case Read(_, _, _, length) => q[1 + length..]
    case Unclosed => q[1..]
  }

  /** The tokens of a pattern, with the literal text not yet emitted. */
  function Tokenize(q: string, pending: string): seq<Token>
    decreases |q|
  {
    if q == "" then Lit(pending)
    else if q[0] != '%' || (|q| > 1 && q[1] == '%') then Tokenize(q[1..], pending + [q[0]])
    else Lit(pending) + ([TokenRead(ReadDirective(q[1..]))] + Tokenize(AfterDirective(q), ""))
  }

  lemma TextFirst(t: Token, ts: seq<Token>)
    ensures ([t] + ts)[0] == t && ([t] + ts)[1..] == ts && Print([t] + ts) == Show(t) + Print(ts)
  {}

  lemma MovePercent(pending: string, q: string)
    requires PercentsDoubled(pending, q) && q != ""
    requires q[0] != '%' || (|q| > 1 && q[1] == '%')
    ensures PercentsDoubled(pending + [q[0]], q[1..])
  {
    assert pending + [q[0]] + q[1..] == pending + q;
  }

  lemma NameChars(q: string)
    ensures IsName(q[..NameLength(q)])
  {}

  lemma NoCloseBefore(q: string)
    ensures '}' !in q[..ClosePosition(q)]
  {}

  /** A name and a closed brace group, cut at their ends. */
  lemma CutBraces(d: string, e: nat, c: nat)
    requires e + 1 + c < |d| && d[e] == '{' && d[e + 1..][c] == '}'
    ensures d == d[..e] + Group(d[e + 1..e + 1 + c], d[e + 1 + c + 1..])
    ensures d[e + 1..e + 1 + c] == d[e + 1..][..c]
  {
    var tail := d[e + 1..];
    assert tail == tail[..c] + "}" + tail[c + 1..] && tail[c + 1..] == d[e + 1 + c + 1..];
    assert d == d[..e] + d[e..] && d[e..] == "{" + tail;
  }

  lemma BracedText(n: string, f: string, after: string)
    ensures "%" + (n + Group(f, after)) == Show(Braced(n, f)) + after
  {}

  lemma PlainText(n: string, after: string)
    ensures "%" + (n + after) == Show(Plain(n)) + after
  {}

  lemma Suffix(q: string, k: nat)
    requires q != "" && q[0] == '%' && 1 + k <= |q|
    ensures q[1 + k..] == q[1..][k..] && q == "%" + q[1..]
  {}

  lemma BracedShape(q: string, e: nat, c: nat, t: Token, after: string)
    requires q != "" && q[0] == '%' && e + 1 + c < |q| - 1 && q[1..][e] == '{' && q[1..][e + 1..][c] == '}'
    requires t == Braced(q[1..][..e], q[1..][e + 1..e + 1 + c]) && after == q[1 + (e + 1 + c + 1)..]
    ensures q == Show(t) + after
  {
    var d := q[1..];
    Suffix(q, e + 1 + c + 1);
    CutBraces(d, e, c);
    BracedText(d[..e], d[e + 1..e + 1 + c], d[e + 1 + c + 1..]);
  }

  lemma PlainShape(q: string, e: nat, t: Token, after: string)
    requires q != "" && q[0] == '%' && e <= |q| - 1 && t == Plain(q[1..][..e]) && after == q[1 + e..]
    ensures q == Show(t) + after
  {
    Suffix(q, e);
    Parts(q[1..][..e], q[1..][e..]);
    assert q[1..] == q[1..][..e] + q[1..][e..];
    PlainText(q[1..][..e], q[1..][e..]);
  }

  lemma OpenShape(q: string, t: Token, after: string)
    requires q != "" && q[0] == '%' && t == Open && after == q[1..]
    ensures q == Show(t) + after
  {
    Suffix(q, 0);
  }

  /** The shape of the text that a directive was read from. */
  lemma ReadShape(q: string)
    requires q != "" && q[0] == '%'
    ensures q == Show(TokenRead(ReadDirective(q[1..]))) + AfterDirective(q)
  {
    var d := q[1..];
    var e := NameLength(d);
    var t, after := TokenRead(ReadDirective(d)), AfterDirective(q);
    match ReadDirective(d)
    case Read(_, _, braced, _) =>
      if braced { BracedShape(q, e, ClosePosition(d[e + 1..]), t, after); } else { PlainShape(q, e, t, after); }
    case Unclosed => OpenShape(q, t, after);
  }

  lemma GroupFits(d: string, e: nat, c: nat)
    requires e == NameLength(d) && e < |d| && d[e] == '{' && c == ClosePosition(d[e + 1..])
    ensures e + 1 + c < |d| ==> '}' !in d[e + 1..e + 1 + c]
    ensures e + 1 + c >= |d| ==> LeftOpen(d)
  {
    NameChars(d);
    NoCloseBefore(d[e + 1..]);
    if e + 1 + c < |d| { CutBraces(d, e, c); } else { assert d[e + 1..][..c] == d[e + 1..]; }
  }

  lemma ReadFits(q: string, ts: seq<Token>)
    requires q != "" && q[0] == '%' && !(|q| > 1 && q[1] == '%') && Print(ts) == AfterDirective(q)
    ensures Fits(TokenRead(ReadDirective(q[1..])), ts)
  {
    var d := q[1..];
    var e := NameLength(d);
    NameChars(d);
    if e < |d| && d[e] == '{' { GroupFits(d, e, ClosePosition(d[e + 1..])); }
  }

  /** The pending text before a token that is not text. */
  lemma LitFirst(pending: string, t: Token, ts: seq<Token>)
    requires !t.Text? && WellFormed(ts) && Fits(t, ts) && PercentsDoubled(pending, Print([t] + ts))
    ensures WellFormed(Lit(pending) + ([t] + ts)) && Print(Lit(pending) + ([t] + ts)) == pending + Print([t] + ts)
  {
    TextFirst(t, ts);
    if pending == "" {
      assert Lit(pending) + ([t] + ts) == [t] + ts && pending + Print([t] + ts) == Print([t] + ts);
    } else {
      TextFirst(Text(pending), [t] + ts);
    }
  }

  /** One directive, in front of the tokens of what follows it. */
  lemma DirectivePrint(q: string, pending: string, ts: seq<Token>)
    requires q != "" && q[0] == '%' && !(|q| > 1 && q[1] == '%') && PercentsDoubled(pending, q)
    requires WellFormed(ts) && Print(ts) == AfterDirective(q)
    ensures var all := Lit(pending) + ([TokenRead(ReadDirective(q[1..]))] + ts); WellFormed(all) && Print(all) == pending + q
  {
    var t := TokenRead(ReadDirective(q[1..]));
    ReadShape(q);
    ReadFits(q, ts);
    TextFirst(t, ts);
    LitFirst(pending, t, ts);
  }

  predicate AtText(q: string) {
    q != "" && (q[0] != '%' || (|q| > 1 && q[1] == '%'))
  }

  lemma TokenizeText(q: string, pending: string)
    requires AtText(q)
    ensures Tokenize(q, pending) == Tokenize(q[1..], pending + [q[0]]) && pending + [q[0]] + q[1..] == pending + q
  {}

  lemma TokenizeDirective(q: string, pending: string)
    requires q != "" && !AtText(q)
    ensures Tokenize(q, pending) == Lit(pending) + ([TokenRead(ReadDirective(q[1..]))] + Tokenize(AfterDirective(q), ""))
  {}

  lemma {:induction false} TokensPrint(q: string, pending: string)
    requires PercentsDoubled(pending, q)
    ensures WellFormed(Tokenize(q, pending)) && Print(Tokenize(q, pending)) == pending + q
    decreases |q|
  {
    if q == "" {
      if pending != "" { TextFirst(Text(pending), []); }
    } else if AtText(q) {
      MovePercent(pending, q);
      TokensPrint(q[1..], pending + [q[0]]);
      TokenizeText(q, pending);
    } else {
      var after := AfterDirective(q);
      TokensPrint(after, "");
      assert "" + after == after;
      DirectivePrint(q, pending, Tokenize(after, ""));
      TokenizeDirective(q, pending);
    }
  }

  /** Every pattern, with or without an error, is the text of the well-formed token list that its parse
      stands for. */
  lemma ParsePrint(p: string)
    ensures WellFormed(Tokenize(p, "")) && Print(Tokenize(p, "")) == p
    ensures Entries(Tokenize(p, "")) == Parse(p).entries && (Open in Tokenize(p, "") <==> Parse(p).unclosed)
    ensures !IsError(p) <==> Valid(Tokenize(p, ""))
  {
    TokensPrint(p, "");
    assert "" + p == p;
    PrintParse(Tokenize(p, ""));
    ErrorExactly(Tokenize(p, ""));
  }

  /** The pattern is the text of some valid token list. */
  ghost predicate InGrammar(p: string) {
    exists ts :: Valid(ts) && Print(ts) == p
  }

  /** The parser accepts exactly the grammar. */
  lemma AcceptsGrammar(p: string)
    ensures !IsError(p) <==> InGrammar(p)
  {
    if !IsError(p) {
      ParsePrint(p);
    } else if ts :| Valid(ts) && Print(ts) == p {
      ErrorExactly(ts);
    }
  }

  /** The grammar is unambiguous up to writing an empty brace group. */
  lemma Unambiguous(ts: seq<Token>, us: seq<Token>)
    requires WellFormed(ts) && WellFormed(us) && Print(ts) == Print(us)
    ensures Entries(ts) == Entries(us) && (Valid(ts) <==> Valid(us))
  {
    PrintParse(ts);
    PrintParse(us);
    ErrorExactly(ts);
    ErrorExactly(us);
  }
}
