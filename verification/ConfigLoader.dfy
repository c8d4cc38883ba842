/** The registry of configuration variables and loading it from a YAML tree. */
module ConfigLoader {
  import opened Wrappers
  import opened ConfigVars

  /** Entries of a mapping in document order; scalar keys only. */
  datatype Yaml = Null | Scalar(text: string) | Sequence(items: seq<Yaml>) | Mapping(entries: seq<Member>)

  datatype Member = Member(path: string, node: Yaml)

  /** The characters of a variable name. The digit 9 is not among them. */
  const NAME_CHARS := "abcdefghijklmnopqrstuvwxyz._012345678"

  lemma NameChars(c: char)
    ensures c in NAME_CHARS <==> 'a' <= c <= 'z' || '0' <= c <= '8' || c == '.' || c == '_'
  {}

  predicate ValidName(s: string) {
    forall c :: c in s ==> c in NAME_CHARS
  }

  function Join(prefix: string, key: string): string {
    if prefix == "" then key else prefix + "." + key
  }

  // ---------------------------------------------------------------- flattening

  /** Every node of the tree with its dotted path, in pre-order. */
  function Paths(prefix: string, node: Yaml): seq<Member>
    decreases node, 1
  {
    [Member(prefix, node)] + if node.Mapping? then PathsOf(prefix, node.entries) else []
  }

  function PathsOf(prefix: string, entries: seq<Member>): seq<Member>
    decreases entries, 0
  {
    if entries == [] then [] else Paths(Join(prefix, entries[0].path), entries[0].node) + PathsOf(prefix, entries[1..])
  }

  /** What `ListAllMember` appends: it does not descend below an invalid prefix. */
  function Listed(prefix: string, node: Yaml): seq<Member>
    decreases node, 1
  {
    if !ValidName(prefix) then []
    else [Member(prefix, node)] + if node.Mapping? then ListedOf(prefix, node.entries) else []
  }

  function ListedOf(prefix: string, entries: seq<Member>): seq<Member>
    decreases entries, 0
  {
    if entries == [] then [] else Listed(Join(prefix, entries[0].path), entries[0].node) + ListedOf(prefix, entries[1..])
  }

  function ValidOnly(ms: seq<Member>): seq<Member> {
    if ms == [] then [] else (if ValidName(ms[0].path) then [ms[0]] else []) + ValidOnly(ms[1..])
  }

  lemma {:induction false} ValidOnlyAdd(p: seq<Member>, q: seq<Member>)
    ensures ValidOnly(p + q) == ValidOnly(p) + ValidOnly(q)
  {
    if p == [] {
      assert p + q == q;
    } else {
      assert (p + q)[1..] == p[1..] + q;
      ValidOnlyAdd(p[1..], q);
    }
  }

  lemma JoinInvalid(prefix: string, key: string)
    requires !ValidName(prefix)
    ensures !ValidName(Join(prefix, key))
  {
    var c :| c in prefix && c !in NAME_CHARS;
    assert c in Join(prefix, key);
  }

  /** Below an invalid path there is no valid one. */
  lemma {:induction false} NothingBelow(prefix: string, node: Yaml)
    requires !ValidName(prefix)
    ensures ValidOnly(Paths(prefix, node)) == []
    decreases node, 1
  {
    if node.Mapping? {
      NothingBelowAny(prefix, node.entries);
    }
    ValidOnlyAdd([Member(prefix, node)], if node.Mapping? then PathsOf(prefix, node.entries) else []);
  }

  lemma {:induction false} NothingBelowAny(prefix: string, entries: seq<Member>)
    requires !ValidName(prefix)
    ensures ValidOnly(PathsOf(prefix, entries)) == []
    decreases entries, 0
  {
    if entries != [] {
      JoinInvalid(prefix, entries[0].path);
      NothingBelow(Join(prefix, entries[0].path), entries[0].node);
      NothingBelowAny(prefix, entries[1..]);
      ValidOnlyAdd(Paths(Join(prefix, entries[0].path), entries[0].node), PathsOf(prefix, entries[1..]));
    }
  }

  /** Pruning loses nothing: the list is exactly the pre-order paths with a valid dotted key. */
  lemma {:induction false} ListedIsValidPaths(prefix: string, node: Yaml)
    ensures Listed(prefix, node) == ValidOnly(Paths(prefix, node))
    decreases node, 1
  {
    if !ValidName(prefix) {
      NothingBelow(prefix, node);
    } else {
      if node.Mapping? { ListedOfIsValidPaths(prefix, node.entries); }
      ValidOnlyAdd([Member(prefix, node)], if node.Mapping? then PathsOf(prefix, node.entries) else []);
    }
  }

  lemma {:induction false} ListedOfIsValidPaths(prefix: string, entries: seq<Member>)
    ensures ListedOf(prefix, entries) == ValidOnly(PathsOf(prefix, entries))
    decreases entries, 0
  {
    if entries != [] {
      ListedIsValidPaths(Join(prefix, entries[0].path), entries[0].node);
      ListedOfIsValidPaths(prefix, entries[1..]);
      ValidOnlyAdd(Paths(Join(prefix, entries[0].path), entries[0].node), PathsOf(prefix, entries[1..]));
    }
  }

  function LowerChar(c: char): char {
    if 'A' <= c <= 'Z' then c + 32 as char else c
  }

  function Lower(s: string): (r: string)
    ensures |r| == |s|
  {
    seq(|s|, i requires 0 <= i < |s| => LowerChar(s[i]))
  }

  /** Folding the case of a listed key changes nothing: a key with a capital is not listed. */
  lemma LowerKeepsValid(s: string)
    requires ValidName(s)
    ensures Lower(s) == s
  {
    forall i | 0 <= i < |s| ensures LowerChar(s[i]) == s[i] {
      assert s[i] in NAME_CHARS;
    }
  }

  lemma {:induction false} ListedValid(ms: seq<Member>)
    ensures forall m :: m in ValidOnly(ms) ==> ValidName(m.path)
  {
    if ms != [] { ListedValid(ms[1..]); }
  }

  // ---------------------------------------------------------------- loading

  type Vars<T> = map<string, VarState<T>>

  /** How the values of the variables are read: `emit` prints a node that is not a scalar, `convert`
      is the conversion of the named variable, which fails on some texts. */
  datatype Reader<!T> = Reader(emit: Yaml -> string, convert: (string, string) -> Option<T>)

  function TextOf<T>(r: Reader<T>, node: Yaml): string {
    if node.Scalar? then node.text else r.emit(node)
  }

  /** One listed member: an empty key or an unknown name is skipped, a failed conversion leaves the
      variable as it is. */
  function LoadOne<T(==)>(vars: Vars<T>, m: Member, r: Reader<T>): Vars<T> {
    var key := Lower(m.path);
    if m.path == "" || key !in vars then vars
    else
      match r.convert(key, TextOf(r, m.node))
      case Some(v) => vars[key := Assign(vars[key], v)]
      case None => vars
  }

  function LoadAll<T(==)>(vars: Vars<T>, ms: seq<Member>, r: Reader<T>): Vars<T>
    decreases |ms|
  {
    if ms == [] then vars else LoadAll(LoadOne(vars, ms[0], r), ms[1..], r)
  }

  /** The last value that a member list gives to `name`. */
  function LastValue<T>(name: string, ms: seq<Member>, r: Reader<T>): Option<T>
    decreases |ms|
  {
    if ms == [] then None
    else
      var later := LastValue(name, ms[1..], r);
      if later.Some? then later
      else if ms[0].path == name then r.convert(name, TextOf(r, ms[0].node))
      else None
  }

  function LastOr<T>(name: string, ms: seq<Member>, r: Reader<T>, otherwise: T): T {
    match LastValue(name, ms, r) case Some(v) => v case None => otherwise
  }

  /** Loading a list of valid keys: the names stay the same, each named variable ends with the last
      convertible value given for its name, or with the value it had, and stays consistent with
      its listeners. */
  lemma {:induction false} LoadAllResult<T>(vars: Vars<T>, ms: seq<Member>, r: Reader<T>, name: string)
    requires forall m :: m in ms ==> ValidName(m.path)
    requires name in vars
    ensures LoadAll(vars, ms, r).Keys == vars.Keys
    ensures name == "" ==> LoadAll(vars, ms, r)[name] == vars[name]
    ensures name != "" ==> LoadAll(vars, ms, r)[name].val == LastOr(name, ms, r, vars[name].val)
    ensures LastValue(name, ms, r).None? ==> LoadAll(vars, ms, r)[name] == vars[name]
    ensures (forall m :: m in ms ==> m.path != name) ==> LoadAll(vars, ms, r)[name] == vars[name]
    ensures VarOK(vars[name]) ==> VarOK(LoadAll(vars, ms, r)[name])
    decreases |ms|
  {
    if ms != [] {
      LowerKeepsValid(ms[0].path);
      var next := LoadOne(vars, ms[0], r);
      LoadAllResult(next, ms[1..], r, name);
      if ms[0].path == name && r.convert(name, TextOf(r, ms[0].node)).Some? && VarOK(vars[name]) {
        AssignOK(vars[name], r.convert(name, TextOf(r, ms[0].node)).value);
      }
    }
  }

  /** Loading a tree is exact: every variable ends with the last convertible value among the tree's
      paths that spell its name, no name is added or removed, the others keep their values, and so
      does a variable with the empty name. */
  lemma LoadIsExact<T>(vars: Vars<T>, root: Yaml, r: Reader<T>, name: string)
    requires name in vars
    ensures var loaded := LoadAll(vars, Listed("", root), r);
      && loaded.Keys == vars.Keys
      && (name == "" ==> loaded[name] == vars[name])
      && (name != "" ==> loaded[name].val == LastOr(name, ValidOnly(Paths("", root)), r, vars[name].val))
      && ((forall m :: m in Paths("", root) ==> m.path != name) ==> loaded[name] == vars[name])
  {
    ListedIsValidPaths("", root);
    ListedValid(Paths("", root));
    ValidOnlyWithin(Paths("", root));
    LoadAllResult(vars, Listed("", root), r, name);
  }

  lemma {:induction false} ValidOnlyWithin(ms: seq<Member>)
    ensures forall m :: m in ValidOnly(ms) ==> m in ms
  {
    if ms != [] { ValidOnlyWithin(ms[1..]); }
  }

  // ---------------------------------------------------------------- the registry object

  class MemberList {
    var output: seq<Member>
    constructor () ensures output == [] { output := []; }
  }

  lemma Assoc<X>(a: seq<X>, b: seq<X>, c: seq<X>)
    ensures (a + b) + c == a + (b + c)
  {
  }

  lemma {:induction false} ListedOfSnoc(prefix: string, entries: seq<Member>, last: Member)
    ensures ListedOf(prefix, entries + [last]) == ListedOf(prefix, entries) + Listed(Join(prefix, last.path), last.node)
    decreases |entries|
  {
    if entries == [] {
      assert ListedOf(prefix, [last][1..]) == [];
    } else {
      assert (entries + [last])[1..] == entries[1..] + [last];
      ListedOfSnoc(prefix, entries[1..], last);
    }
  }

  lemma ListedOfNext(before: seq<Member>, prefix: string, entries: seq<Member>, it: nat)
    requires it < |entries|
    ensures (before + ListedOf(prefix, entries[..it])) + Listed(Join(prefix, entries[it].path), entries[it].node)
         == before + ListedOf(prefix, entries[..it + 1])
  {
    ListedOfSnoc(prefix, entries[..it], entries[it]);
    assert entries[..it + 1] == entries[..it] + [entries[it]];
    Assoc(before, ListedOf(prefix, entries[..it]), Listed(Join(prefix, entries[it].path), entries[it].node));
  }

  method ListAllMember(prefix: string, node: Yaml, out: MemberList)
    modifies out
    ensures out.output == old(out.output) + Listed(prefix, node)
    decreases node, 1
  {
    if !ValidName(prefix) {
      return;
    }
    out.output := out.output + [Member(prefix, node)];
    if node.Mapping? {
      ghost var start := out.output;
      var it := 0;
      while it < |node.entries|
        invariant 0 <= it <= |node.entries|
        invariant out.output == start + ListedOf(prefix, node.entries[..it])
      {
        ListedOfNext(start, prefix, node.entries, it);
        ListAllMember(Join(prefix, node.entries[it].path), node.entries[it].node, out);
        it := it + 1;
      }
      assert node.entries[..it] == node.entries;
    }
  }

  method ListMembers(root: Yaml) returns (ms: seq<Member>)
    ensures ms == Listed("", root)
  {
    var all := new MemberList();
    ListAllMember("", root, all);
    ms := all.output;
  }

  lemma LoadNext<T>(vars: Vars<T>, ms: seq<Member>, i: nat, r: Reader<T>)
    requires i < |ms|
    ensures LoadAll(vars, ms[i..], r) == LoadAll(LoadOne(vars, ms[i], r), ms[i + 1..], r)
  {
    assert ms[i..][1..] == ms[i + 1..];
  }

  datatype Lookup = Existing | WrongType | InvalidName | Created

  class Config<T(==)> {
    var datas: Vars<T>
    var types: map<string, string>

    constructor ()
      ensures datas == map[] && types == map[]
    {
      datas, types := map[], map[];
    }

    /** Finds a variable of the requested type, or creates it when the name is new and valid. The name
        is checked only for a new variable. */
    method LookupOrCreate(name: string, typeName: string, v: T) returns (r: Lookup)
      requires types.Keys == datas.Keys
      modifies this
      ensures types.Keys == datas.Keys
      ensures r == if name in old(datas) then (if old(types)[name] == typeName then Existing else WrongType)
                   else if ValidName(name) then Created else InvalidName
      ensures datas == if r.Created? then old(datas)[name := Fresh(v)] else old(datas)
      ensures types == if r.Created? then old(types)[name := typeName] else old(types)
    {
      if name in datas {
        return if types[name] == typeName then Existing else WrongType;
      }
      if exists c :: c in name && c !in NAME_CHARS {
        return InvalidName;
      }
      datas := datas[name := Fresh(v)];
      types := types[name := typeName];
      r := Created;
    }

    method LookupBase(name: string) returns (v: Option<VarState<T>>)
      ensures v == if name in datas then Some(datas[name]) else None
    {
      v := if name in datas then Some(datas[name]) else None;
    }

    /** The body of the loop of `LoadFromYaml`. */
    method LoadMember(m: Member, r: Reader<T>)
      modifies this`datas
      ensures datas == LoadOne(old(datas), m, r)
    {
      var key := m.path;
      if key == "" {
        return;
      }
      key := Lower(key);
      var v := LookupBase(key);
      if v.Some? {
        var text := if m.node.Scalar? then m.node.text else r.emit(m.node);
        var converted := r.convert(key, text);
        if converted.Some? {
          datas := datas[key := Assign(v.value, converted.value)];
        }
      }
    }

    /** `LoadFromYaml`: existing variables are assigned in list order, nothing is created. */
    method LoadFromYaml(root: Yaml, r: Reader<T>)
      modifies this`datas
      ensures datas == LoadAll(old(datas), Listed("", root), r)
    {
      var ms := ListMembers(root);
      var i := 0;
      assert ms[0..] == ms;
      while i < |ms|
        invariant 0 <= i <= |ms|
        invariant LoadAll(datas, ms[i..], r) == LoadAll(old(datas), ms, r)
      {
        LoadNext(datas, ms, i, r);
        LoadMember(ms[i], r);
        i := i + 1;
      }
    }
  }
}
