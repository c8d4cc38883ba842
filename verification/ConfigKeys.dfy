/** The tree as a caller sees it: nodes reached by keys. What flattening lists and what loading assigns,
    said of key sequences alone. */
module ConfigKeys {
  import opened Wrappers
  import opened ConfigVars
  import opened ConfigLoader

  /** A way from the root to a node: the place of the member taken in each mapping. */
  type Branch = seq<nat>

  /** The node at the end of a branch. */
  function NodeOn(root: Yaml, br: Branch): Option<Yaml>
    decreases |br|
  {
    if br == [] then Some(root)
    else if root.Mapping? && br[0] < |root.entries| then NodeOn(root.entries[br[0]].node, br[1..])
    else None
  }

  /** The keys along a branch. */
  function KeysOn(root: Yaml, br: Branch): (ks: seq<string>)
    requires NodeOn(root, br).Some?
    ensures |ks| == |br|
    decreases |br|
  {
    if br == [] then [] else [root.entries[br[0]].path] + KeysOn(root.entries[br[0]].node, br[1..])
  }

  /** Pre-order, which is document order: a node before what is below it, then its siblings. */
  predicate Earlier(a: Branch, b: Branch)
    decreases |a|
  {
    b != [] && (a == [] || a[0] < b[0] || (a[0] == b[0] && Earlier(a[1..], b[1..])))
  }

  /** The keys with a dot before each. */
  function Dotted(ks: seq<string>): string {
    if ks == [] then "" else "." + ks[0] + Dotted(ks[1..])
  }

  /** The text of a key sequence: k1.k2. ... .kn, without the empty keys at its beginning. */
  function Spell(ks: seq<string>): string {
    if ks == [] then "" else if ks[0] == "" then Spell(ks[1..]) else ks[0] + Dotted(ks[1..])
  }

  // ---------------------------------------------------------------- the keys of the listed paths

  lemma {:induction false} DottedSnoc(ks: seq<string>, key: string)
    ensures Dotted(ks + [key]) == Dotted(ks) + "." + key
  {
    if ks == [] {
      assert ks + [key] == [key] && [key][1..] == [];
    } else {
      assert (ks + [key])[1..] == ks[1..] + [key];
      DottedSnoc(ks[1..], key);
    }
  }

  lemma {:induction false} SpellSnoc(ks: seq<string>, key: string)
    ensures Spell(ks + [key]) == Join(Spell(ks), key)
  {
    if ks == [] {
      assert ks + [key] == [key] && [key][1..] == [];
    } else {
      assert (ks + [key])[1..] == ks[1..] + [key];
      if ks[0] == "" { SpellSnoc(ks[1..], key); } else { DottedSnoc(ks[1..], key); }
    }
  }

  /** All branches in pre-order; those that go through the members from number `n` on. */
  function Branches(node: Yaml): seq<Branch>
    decreases node, 1, 0
  {
    [[]] + if node.Mapping? then BranchesOf(node, 0) else []
  }

  function BranchesOf(node: Yaml, n: nat): seq<Branch>
    requires node.Mapping? && n <= |node.entries|
    decreases node, 0, |node.entries| - n
  {
    if n == |node.entries| then [] else Under(n, Branches(node.entries[n].node)) + BranchesOf(node, n + 1)
  }

  function Under(n: nat, brs: seq<Branch>): (r: seq<Branch>)
    ensures |r| == |brs|
  {
    seq(|brs|, i requires 0 <= i < |brs| => [n] + brs[i])
  }

  /** Member `m` is what the tree has on branch `br`, under the keys `pre` and those of the branch. */
  ghost predicate IsMember(m: Member, pre: seq<string>, node: Yaml, br: Branch) {
    NodeOn(node, br).Some? && m == Member(Spell(pre + KeysOn(node, br)), NodeOn(node, br).value)
  }

  ghost predicate AreMembers(ms: seq<Member>, pre: seq<string>, node: Yaml, brs: seq<Branch>) {
    |ms| == |brs| && forall i :: 0 <= i < |ms| ==> IsMember(ms[i], pre, node, brs[i])
  }

  lemma MembersUnder(ms: seq<Member>, pre: seq<string>, node: Yaml, n: nat, brs: seq<Branch>)
    requires node.Mapping? && n < |node.entries|
    requires AreMembers(ms, pre + [node.entries[n].path], node.entries[n].node, brs)
    ensures AreMembers(ms, pre, node, Under(n, brs))
  {
    forall i | 0 <= i < |ms| ensures IsMember(ms[i], pre, node, Under(n, brs)[i]) {
      var child, br := node.entries[n], Under(n, brs)[i];
      assert IsMember(ms[i], pre + [child.path], child.node, brs[i]);
      assert br[1..] == brs[i];
      assert pre + KeysOn(node, br) == (pre + [child.path]) + KeysOn(child.node, brs[i]);
    }
  }

  lemma MembersAdd(p: seq<Member>, q: seq<Member>, pre: seq<string>, node: Yaml, a: seq<Branch>, b: seq<Branch>)
    requires AreMembers(p, pre, node, a) && AreMembers(q, pre, node, b)
    ensures AreMembers(p + q, pre, node, a + b)
  {}

  lemma {:induction false} PathsAre(pre: seq<string>, node: Yaml)
    ensures AreMembers(Paths(Spell(pre), node), pre, node, Branches(node))
    decreases node, 1, 0
  {
    assert pre + [] == pre;
    assert IsMember(Member(Spell(pre), node), pre, node, []);
    if node.Mapping? {
      PathsOfAre(pre, node, 0);
      assert node.entries[0..] == node.entries;
      MembersAdd([Member(Spell(pre), node)], PathsOf(Spell(pre), node.entries), pre, node, [[]], BranchesOf(node, 0));
    }
  }

  lemma {:induction false} PathsOfAre(pre: seq<string>, node: Yaml, n: nat)
    requires node.Mapping? && n <= |node.entries|
    ensures AreMembers(PathsOf(Spell(pre), node.entries[n..]), pre, node, BranchesOf(node, n))
    decreases node, 0, |node.entries| - n
  {
    if n < |node.entries| {
      var child := node.entries[n];
      assert node.entries[n..][1..] == node.entries[n + 1..];
      SpellSnoc(pre, child.path);
      PathsAre(pre + [child.path], child.node);
      MembersUnder(Paths(Spell(pre + [child.path]), child.node), pre, node, n, Branches(child.node));
      PathsOfAre(pre, node, n + 1);
      MembersAdd(Paths(Spell(pre + [child.path]), child.node), PathsOf(Spell(pre), node.entries[n + 1..]), pre, node,
                 Under(n, Branches(child.node)), BranchesOf(node, n + 1));
    }
  }

  // ---------------------------------------------------------------- every branch, in order

  ghost predicate InOrder(brs: seq<Branch>) {
    forall i, j :: 0 <= i < j < |brs| ==> Earlier(brs[i], brs[j])
  }

  /** The branches that go through the members from number `n` on. */
  ghost predicate From(node: Yaml, n: nat, br: Branch) {
    br != [] && br[0] >= n && NodeOn(node, br).Some?
  }

  lemma {:induction false} BranchesComplete(node: Yaml)
    ensures InOrder(Branches(node)) && forall br :: br in Branches(node) <==> NodeOn(node, br).Some?
    decreases node, 1, 0
  {
    if node.Mapping? {
      BranchesOfComplete(node, 0);
      var below := BranchesOf(node, 0);
      assert forall j :: 0 <= j < |below| ==> below[j] in below;
    }
  }

  lemma {:induction false} BranchesOfComplete(node: Yaml, n: nat)
    requires node.Mapping? && n <= |node.entries|
    ensures InOrder(BranchesOf(node, n)) && forall br :: br in BranchesOf(node, n) <==> From(node, n, br)
    decreases node, 0, |node.entries| - n
  {
    if n < |node.entries| {
      var child, rest := node.entries[n].node, BranchesOf(node, n + 1);
      BranchesComplete(child);
      UnderComplete(node, n, Branches(child));
      BranchesOfComplete(node, n + 1);
      assert forall i :: 0 <= i < |Under(n, Branches(child))| ==> Under(n, Branches(child))[i][0] == n;
      assert forall j :: 0 <= j < |rest| ==> rest[j] in rest;
    }
  }

  lemma UnderComplete(node: Yaml, n: nat, brs: seq<Branch>)
    requires node.Mapping? && n < |node.entries| && InOrder(brs)
    requires forall br :: br in brs <==> NodeOn(node.entries[n].node, br).Some?
    ensures InOrder(Under(n, brs))
    ensures forall br :: br in Under(n, brs) <==> br != [] && br[0] == n && NodeOn(node, br).Some?
  {
    var us := Under(n, brs);
    forall i, j | 0 <= i < j < |us| ensures Earlier(us[i], us[j]) {
      assert us[i][1..] == brs[i] && us[j][1..] == brs[j];
    }
    forall br | br in us ensures br != [] && br[0] == n && NodeOn(node, br).Some? {
      var i :| 0 <= i < |us| && us[i] == br;
      assert br[1..] == brs[i] && brs[i] in brs;
    }
    forall br | br != [] && br[0] == n && NodeOn(node, br).Some? ensures br in us {
      assert br[1..] in brs;
      var i :| 0 <= i < |brs| && brs[i] == br[1..];
      assert us[i] == br;
    }
  }

  /** `ms` are the nodes on the branches `brs`, under the texts of their keys; `brs` are all branches
      that lead to a node, each once, in document order. */
  ghost predicate ListsTree(root: Yaml, ms: seq<Member>, brs: seq<Branch>) {
    && |brs| == |ms|
    && (forall i, j :: 0 <= i < j < |brs| ==> Earlier(brs[i], brs[j]))
    && (forall br :: br in brs <==> NodeOn(root, br).Some?)
    && (forall i :: 0 <= i < |brs| ==>
          NodeOn(root, brs[i]).Some? && ms[i] == Member(Spell(KeysOn(root, brs[i])), NodeOn(root, brs[i]).value))
  }

  /** Flattening lists every node that keys lead to, once, in document order, under the text of its
      keys, and nothing else. */
  lemma PathsExactly(root: Yaml) returns (brs: seq<Branch>)
    ensures ListsTree(root, Paths("", root), brs)
  {
    brs := Branches(root);
    var ms := Paths("", root);
    PathsAre([], root);
    BranchesComplete(root);
    forall i | 0 <= i < |brs|
      ensures NodeOn(root, brs[i]).Some? && ms[i] == Member(Spell(KeysOn(root, brs[i])), NodeOn(root, brs[i]).value)
    {
      assert IsMember(ms[i], [], root, brs[i]);
      assert [] + KeysOn(root, brs[i]) == KeysOn(root, brs[i]);
    }
  }

  // ---------------------------------------------------------------- loading by keys

  /** The tree gives value `v` to variable `name` on branch `br`: its keys spell the name, which has
      valid characters only, and the text of the node, or its print when it is no scalar, converts. */
  ghost predicate Gives<T>(root: Yaml, r: Reader<T>, name: string, br: Branch, v: T) {
    && NodeOn(root, br).Some? && name != "" && Spell(KeysOn(root, br)) == name
    && (forall c :: c in name ==> c in NAME_CHARS)
    && var node := NodeOn(root, br).value;
    r.convert(name, match node case Scalar(text) => text case _ => r.emit(node)) == Some(v)
  }

  ghost predicate GivesAt<T>(ms: seq<Member>, r: Reader<T>, name: string, i: int, v: T) {
    0 <= i < |ms| && ms[i].path == name && r.convert(name, TextOf(r, ms[i].node)) == Some(v)
  }

  /** The last value of a list is given somewhere, and none after it. */
  lemma {:induction false} LastValueAt<T>(ms: seq<Member>, r: Reader<T>, name: string) returns (last: int)
    ensures match LastValue(name, ms, r)
      case None => forall i, v :: !GivesAt(ms, r, name, i, v)
      case Some(v) => GivesAt(ms, r, name, last, v) && forall i, u :: GivesAt(ms, r, name, i, u) ==> i <= last
    decreases |ms|
  {
    last := 0;
    if ms != [] {
      last := LastValueAt(ms[1..], r, name);
      var later := LastValue(name, ms[1..], r);
      assert forall i, v :: i > 0 ==> (GivesAt(ms, r, name, i, v) <==> GivesAt(ms[1..], r, name, i - 1, v));
      last := if later.Some? then last + 1 else 0;
    }
  }

  lemma {:induction false} ValidOnlyLast<T>(ms: seq<Member>, r: Reader<T>, name: string)
    ensures LastValue(name, ValidOnly(ms), r) == if ValidName(name) then LastValue(name, ms, r) else None
  {
    if ms != [] {
      ValidOnlyLast(ms[1..], r, name);
      if ValidName(ms[0].path) {
        assert ValidOnly(ms)[0] == ms[0] && ValidOnly(ms)[1..] == ValidOnly(ms[1..]);
      } else {
        assert ValidOnly(ms) == ValidOnly(ms[1..]);
      }
    }
  }

  /** What a list entry gives, its branch gives, and the other way round. */
  lemma EntryGives<T>(root: Yaml, r: Reader<T>, name: string, ms: seq<Member>, brs: seq<Branch>, i: int, v: T)
    requires ListsTree(root, ms, brs) && 0 <= i < |brs|
    ensures Gives(root, r, name, brs[i], v) <==> name != "" && ValidName(name) && GivesAt(ms, r, name, i, v)
  {}

  lemma BranchPlace(root: Yaml, ms: seq<Member>, brs: seq<Branch>, br: Branch) returns (i: nat)
    requires ListsTree(root, ms, brs) && NodeOn(root, br).Some?
    ensures i < |brs| && brs[i] == br
  {
    assert br in brs;
    i :| i < |brs| && brs[i] == br;
  }

  /** The branch that gives the last value of the list. */
  lemma LastGives<T>(root: Yaml, r: Reader<T>, name: string, ms: seq<Member>, brs: seq<Branch>, br: Branch, v: T)
    requires ListsTree(root, ms, brs) && Gives(root, r, name, br, v)
    requires forall b, u :: Gives(root, r, name, b, u) ==> !Earlier(br, b)
    ensures LastValue(name, ms, r) == Some(v)
  {
    var last := LastValueAt(ms, r, name);
    var i := BranchPlace(root, ms, brs, br);
    EntryGives(root, r, name, ms, brs, i, v);
    EntryGives(root, r, name, ms, brs, last, LastValue(name, ms, r).value);
    assert Gives(root, r, name, brs[last], LastValue(name, ms, r).value);
  }

  lemma NothingGives<T>(root: Yaml, r: Reader<T>, name: string, ms: seq<Member>, brs: seq<Branch>)
    requires ListsTree(root, ms, brs) && name != "" && ValidName(name) && forall br, v :: !Gives(root, r, name, br, v)
    ensures LastValue(name, ms, r).None?
  {
    var last := LastValueAt(ms, r, name);
    if LastValue(name, ms, r).Some? { EntryGives(root, r, name, ms, brs, last, LastValue(name, ms, r).value); }
  }

  /** Loading, said of key sequences: no name appears or disappears; a variable that the tree gives
      values to ends with the last of them in document order; every other variable is as it was. */
  lemma LoadByKeys<T>(vars: Vars<T>, root: Yaml, r: Reader<T>, name: string)
    requires name in vars
    ensures var loaded := LoadAll(vars, Listed("", root), r);
      && loaded.Keys == vars.Keys
      && (forall br, v :: Gives(root, r, name, br, v) && (forall b, u :: Gives(root, r, name, b, u) ==> !Earlier(br, b)) ==>
            loaded[name].val == v)
      && ((forall br, v :: !Gives(root, r, name, br, v)) ==> loaded[name] == vars[name])
  {
    var ms := Paths("", root);
    var brs := PathsExactly(root);
    LoadListed(vars, root, r, name);
    forall br, v | Gives(root, r, name, br, v) && forall b, u :: Gives(root, r, name, b, u) ==> !Earlier(br, b)
      ensures LastValue(name, ms, r) == Some(v)
    {
      LastGives(root, r, name, ms, brs, br, v);
    }
    if name != "" && ValidName(name) && forall br, v :: !Gives(root, r, name, br, v) {
      NothingGives(root, r, name, ms, brs);
    }
  }

  lemma LoadListed<T>(vars: Vars<T>, root: Yaml, r: Reader<T>, name: string)
    requires name in vars
    ensures var loaded := LoadAll(vars, Listed("", root), r);
      && loaded.Keys == vars.Keys
      && (name == "" || !ValidName(name) || LastValue(name, Paths("", root), r).None? ==> loaded[name] == vars[name])
      && (name != "" && ValidName(name) ==> loaded[name].val == LastOr(name, Paths("", root), r, vars[name].val))
  {
    ListedIsValidPaths("", root);
    ListedValid(Paths("", root));
    ValidOnlyLast(Paths("", root), r, name);
    LoadAllResult(vars, Listed("", root), r, name);
  }
}
