/** The format of a new logger, and that the pattern parser accepts it. */
module DefaultPattern {
  import opened PatternGrammar

  const DEFAULT_PATTERN := "%d{%Y-%m-%d" + " %H:%M:%S}" + "%T%t%T%N%T%F" + "%T[%p]%T[%c]" + "%T%f:%l%T%m%n"

  /** From position `i` on, starting between tokens, the pattern has no error. */
  ghost predicate CleanFrom(p: string, i: nat) {
    i <= |p| && !ParseRest(p[i..], "").unclosed && AllKnown(ParseRest(p[i..], "").entries)
  }

  lemma CleanPlain(p: string, i: nat)
    requires CleanFrom(p, i + 2) && p[i] == '%' && Known(p[i + 1])
    requires i + 2 < |p| ==> !InName(p[i + 2]) && p[i + 2] != '{'
    ensures CleanFrom(p, i)
  {
    var q := p[i..];
    assert q[1..][1..] == p[i + 2..] == q[2..];
    ReadPlain([p[i + 1]], p[i + 2..]);
    assert q[1..] == [p[i + 1]] + p[i + 2..];
    assert q[1] == p[i + 1];
  }

  lemma CleanText(p: string, i: nat)
    requires CleanFrom(p, i + 1) && i + 2 < |p| && p[i] != '%' && p[i + 1] == '%' && p[i + 2] != '%'
    ensures CleanFrom(p, i)
  {
    assert p[i..][1..] == p[i + 1..] && p[i + 1..][1..] == p[i + 2..];
    assert [] + [p[i]] == [p[i]];
  }

  lemma CleanDate(p: string)
    requires CleanFrom(p, 21) && p[0] == '%' && p[1] == 'd' && p[2] == '{' && p[20] == '}'
    requires forall k :: 3 <= k < 20 ==> p[k] != '}'
    ensures CleanFrom(p, 0)
  {
    var f, next := p[3..20], p[21..];
    assert '}' !in f;
    ReadBraced("d", f, next);
    assert p[0..] == p && p[1..] == "d" + "{" + f + "}" + next;
    assert p[1 + (3 + |f|)..] == next;
  }

  ghost predicate HeadChars(p: string) {
    && |p| == 58
    && p[0] == '%' && p[1] == 'd' && p[2] == '{'
    && (forall k :: 3 <= k < 20 ==> p[k] != '}')
    && p[20] == '}' && p[21] == '%' && p[22] == 'T' && p[23] == '%' && p[24] == 't' && p[25] == '%'
    && p[26] == 'T' && p[27] == '%' && p[28] == 'N' && p[29] == '%' && p[30] == 'T' && p[31] == '%'
    && p[32] == 'F' && p[33] == '%' && p[34] == 'T' && p[35] == '[' && p[36] == '%' && p[37] == 'p'
    && p[38] == ']'
  }

  ghost predicate TailChars(p: string) {
    && |p| == 58
    && p[38] == ']' && p[39] == '%' && p[40] == 'T' && p[41] == '[' && p[42] == '%' && p[43] == 'c'
    && p[44] == ']' && p[45] == '%' && p[46] == 'T' && p[47] == '%' && p[48] == 'f' && p[49] == ':'
    && p[50] == '%' && p[51] == 'l' && p[52] == '%' && p[53] == 'T' && p[54] == '%' && p[55] == 'm'
    && p[56] == '%' && p[57] == 'n'
  }

  lemma CleanEnd(p: string)
    ensures CleanFrom(p, |p|)
  {
    assert p[|p|..] == "";
  }

  lemma CleanLast(p: string)
    requires TailChars(p)
    ensures CleanFrom(p, 47)
  {
    CleanEnd(p);
    CleanPlain(p, 56);
    CleanPlain(p, 54);
    CleanPlain(p, 52);
    CleanPlain(p, 50);
    CleanText(p, 49);
    CleanPlain(p, 47);
  }

  lemma CleanTail(p: string)
    requires TailChars(p)
    ensures CleanFrom(p, 38)
  {
    CleanLast(p);
    CleanPlain(p, 45);
    CleanText(p, 44);
    CleanPlain(p, 42);
    CleanText(p, 41);
    CleanPlain(p, 39);
    CleanText(p, 38);
  }

  lemma CleanHead(p: string)
    requires HeadChars(p) && CleanFrom(p, 38)
    ensures CleanFrom(p, 0)
  {
    CleanPlain(p, 36);
    CleanText(p, 35);
    CleanPlain(p, 33);
    CleanPlain(p, 31);
    CleanPlain(p, 29);
    CleanPlain(p, 27);
    CleanPlain(p, 25);
    CleanPlain(p, 23);
    CleanPlain(p, 21);
    CleanDate(p);
  }

  lemma DefaultChars()
    ensures HeadChars(DEFAULT_PATTERN) && TailChars(DEFAULT_PATTERN)
  {}

  /** The pattern of a new logger is valid. */
  lemma DefaultValid()
    ensures !IsError(DEFAULT_PATTERN)
  {
    DefaultChars();
    CleanTail(DEFAULT_PATTERN);
    CleanHead(DEFAULT_PATTERN);
    assert DEFAULT_PATTERN[0..] == DEFAULT_PATTERN;
  }
}
