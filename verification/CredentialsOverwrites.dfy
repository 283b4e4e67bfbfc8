/**
 * Credential overwrites with inheritance (packages/cli/src/credentials-overwrites.ts):
 * the memo that `setPlainData` builds, the lookup `get`, and `applyOverwrite`.
 */
module CredentialsOverwrites {
  import opened Common
  import opened CredentialTypes

  type Field = string

  /** A decrypted credential value. Objects and numbers are told apart by identity only. */
  datatype Value = Null | Text(text: string) | Other(id: nat)

  type Fields = map<Field, Value>

  /** `overwriteData` by type name. */
  type Table = map<TypeName, Fields>

  // ---------------------------------------------------------------------
  // Resolution with the memo
  // ---------------------------------------------------------------------

  /** What one `getOverwrites` call returns, and `resolvedTypes` after it. */
  datatype Resolution = Resolution(overwrites: Option<Fields>, resolved: seq<TypeName>)

  /** `Object.assign(target, source)`, where an undefined source adds nothing. */
  function Assign(target: Fields, source: Option<Fields>): Fields {
    if source.Some? then target + source.value else target
  }

  function Resolve(reg: Registry, data: Table, resolved: seq<TypeName>, t: TypeName,
                   ghost rank: TypeName -> nat, ghost width: nat): Resolution
    requires Acyclic(reg, rank, width)
    decreases rank(t), 1, 0
  {
    if t in resolved then Resolution(Lookup(data, t), resolved)
    else if t !in reg then Resolution(None, resolved)
    else if reg[t].None? then Resolution(Lookup(data, t), resolved + [t])
    else
      var (inherited, resolved') := ResolveParents(reg, data, resolved, reg[t].value, rank(t), rank, width);
      Resolution(Some(Assign(inherited, Lookup(data, t))), resolved' + [t])
  }

  /** The loop over the `extends` list. */
  function ResolveParents(reg: Registry, data: Table, resolved: seq<TypeName>, parents: seq<TypeName>,
                          ghost bound: nat, ghost rank: TypeName -> nat, ghost width: nat): (Fields, seq<TypeName>)
    requires Acyclic(reg, rank, width) && Below(parents, rank, bound)
    decreases bound, 0, |parents|
  {
    if |parents| == 0 then (map[], resolved)
    else
      var last := |parents| - 1;
      var (acc, resolved') := ResolveParents(reg, data, resolved, parents[..last], bound, rank, width);
      var r := Resolve(reg, data, resolved', parents[last], rank, width);
      (Assign(acc, r.overwrites), r.resolved)
  }

  /** One turn of the loop of `setPlainData`: only a non-empty result is stored. */
  function Store(data: Table, t: TypeName, overwrites: Option<Fields>): Table {
    if overwrites.Some? && overwrites.value != map[] then data[t := overwrites.value] else data
  }

  /** `setPlainData` after the types of `order` have been enumerated. */
  function Rewrite(reg: Registry, data: Table, order: seq<TypeName>,
                        ghost rank: TypeName -> nat, ghost width: nat): (Table, seq<TypeName>)
    requires Acyclic(reg, rank, width)
  {
    if |order| == 0 then (data, [])
    else
      var last := |order| - 1;
      var (data', resolved) := Rewrite(reg, data, order[..last], rank, width);
      var r := Resolve(reg, data', resolved, order[last], rank, width);
      (Store(data', order[last], r.overwrites), r.resolved)
  }

  // ---------------------------------------------------------------------
  // Lookup
  // ---------------------------------------------------------------------

  /** The fold of `get` over `[name, ...parents]` reversed: earlier names win. */
  function Fold(names: seq<TypeName>, data: Table): Fields {
    if names == [] then map[] else Assign(Fold(names[1..], data), Lookup(data, names[0]))
  }

  /** Undefined when no type of the list has an entry. */
  function GetFrom(names: seq<TypeName>, data: Table): Option<Fields> {
    if exists t :: t in names && t in data then Some(Fold(names, data)) else None
  }

  /** `get(name)` */
  ghost function Inherited(reg: Registry, data: Table, name: TypeName, rank: TypeName -> nat, width: nat): Option<Fields>
    requires Acyclic(reg, rank, width)
  {
    GetFrom([name] + ParentTypes(reg, name, rank, width), data)
  }

  /** The first type of the list whose entry sets the field decides. */
  function FirstSetting(names: seq<TypeName>, data: Table, f: Field): Option<Value> {
    if names == [] then None
    else if names[0] in data && f in data[names[0]] then Some(data[names[0]][f])
    else FirstSetting(names[1..], data, f)
  }

  /** The reference lookup: the nearest type on the chain name, parent, grandparent, ... that sets the field. */
  ghost function Nearest(reg: Registry, data: Table, name: TypeName, f: Field, rank: TypeName -> nat,
                         width: nat): Option<Value>
    requires Acyclic(reg, rank, width)
  {
    FirstSetting([name] + Chain(reg, name, rank, width), data, f)
  }

  lemma {:induction false} FoldIsFirstSetting(names: seq<TypeName>, data: Table, f: Field)
    ensures Lookup(Fold(names, data), f) == FirstSetting(names, data, f)
  {
    if names != [] {
      FoldIsFirstSetting(names[1..], data, f);
    }
  }

  /** Repetitions at the end of the list change nothing. */
  lemma {:induction false} FirstSettingIgnoresRepeats(prefix: seq<TypeName>, rest: seq<TypeName>, data: Table, f: Field)
    requires forall t :: t in rest ==> t in prefix
    ensures FirstSetting(prefix + rest, data, f) == FirstSetting(prefix, data, f)
  {
    FirstSettingConcat(prefix, rest, data, f);
    if FirstSetting(prefix, data, f).None? {
      forall t | t in rest ensures !(t in data && f in data[t]) {
        FirstSettingNone(prefix, data, f, t);
      }
      NoneSetting(rest, data, f);
    }
  }

  lemma {:induction false} FirstSettingConcat(a: seq<TypeName>, b: seq<TypeName>, data: Table, f: Field)
    ensures FirstSetting(a + b, data, f)
         == if FirstSetting(a, data, f).Some? then FirstSetting(a, data, f) else FirstSetting(b, data, f)
  {
    if a == [] {
      assert a + b == b;
    } else {
      assert (a + b)[1..] == a[1..] + b;
      FirstSettingConcat(a[1..], b, data, f);
    }
  }

  lemma {:induction false} FirstSettingNone(names: seq<TypeName>, data: Table, f: Field, t: TypeName)
    requires FirstSetting(names, data, f).None? && t in names
    ensures !(t in data && f in data[t])
  {
    if t != names[0] { FirstSettingNone(names[1..], data, f, t); }
  }

  lemma {:induction false} NoneSetting(names: seq<TypeName>, data: Table, f: Field)
    requires forall t :: t in names ==> !(t in data && f in data[t])
    ensures FirstSetting(names, data, f).None?
  {
    if names != [] { NoneSetting(names[1..], data, f); }
  }

  /** With single inheritance the fold over the grown listing is the chain lookup. */
  lemma FoldIsNearest(reg: Registry, data: Table, name: TypeName, f: Field, rank: TypeName -> nat, width: nat)
    requires Acyclic(reg, rank, width) && SingleInheritance(reg)
    ensures Lookup(Fold([name] + ParentTypes(reg, name, rank, width), data), f) == Nearest(reg, data, name, f, rank, width)
  {
    var listing := ParentTypes(reg, name, rank, width);
    var chain := Chain(reg, name, rank, width);
    ListingStartsWithChain(reg, name, rank, width);
    var rest := listing[|chain|..];
    assert [name] + listing == ([name] + chain) + rest;
    FoldIsFirstSetting([name] + listing, data, f);
    FirstSettingIgnoresRepeats([name] + chain, rest, data, f);
  }

  // ---------------------------------------------------------------------
  // Single inheritance: the memo never changes a lookup
  // ---------------------------------------------------------------------

  /**
   * What every partially merged table keeps: an entry holds at least its own original
   * fields, and any field it holds has the value the chain lookup gives on the original table.
   */
  ghost predicate Faithful(reg: Registry, raw: Table, data: Table, rank: TypeName -> nat, width: nat)
    requires Acyclic(reg, rank, width)
  {
    && data.Keys == raw.Keys
    && forall t :: t in raw ==> FaithfulEntry(reg, raw, t, data[t], rank, width)
  }

  ghost predicate FaithfulEntry(reg: Registry, raw: Table, t: TypeName, entry: Fields, rank: TypeName -> nat, width: nat)
    requires Acyclic(reg, rank, width)
  {
    && (t in raw ==> raw[t].Keys <= entry.Keys)
    && forall f :: f in entry ==> Nearest(reg, raw, t, f, rank, width) == Some(entry[f])
  }

  /** One step along the chain. */
  lemma NearestStep(reg: Registry, data: Table, t: TypeName, f: Field, rank: TypeName -> nat, width: nat)
    requires Acyclic(reg, rank, width) && SingleInheritance(reg)
    ensures t in data && f in data[t] ==> Nearest(reg, data, t, f, rank, width) == Some(data[t][f])
    ensures !(t in data && f in data[t]) && Extends(reg, t) == [] ==> Nearest(reg, data, t, f, rank, width) == None
    ensures !(t in data && f in data[t]) && Extends(reg, t) != []
         ==> Nearest(reg, data, t, f, rank, width) == Nearest(reg, data, Extends(reg, t)[0], f, rank, width)
  {
    var chain := Chain(reg, t, rank, width);
    assert ([t] + chain)[1..] == chain;
    if chain == [] { NoneSetting(chain, data, f); }
  }

  /** A type with one parent is merged over whatever its parent resolves to. */
  lemma ResolveOneParent(reg: Registry, data: Table, resolved: seq<TypeName>, t: TypeName, p: TypeName,
                         rank: TypeName -> nat, width: nat)
    requires Acyclic(reg, rank, width)
    requires t !in resolved && t in reg && reg[t] == Some([p])
    ensures rank(p) < rank(t)
    ensures
      var up := Resolve(reg, data, resolved, p, rank, width);
      Resolve(reg, data, resolved, t, rank, width)
        == Resolution(Some(Assign(Assign(map[], up.overwrites), Lookup(data, t))), up.resolved + [t])
  {
    assert Extends(reg, t) == [p] && [p][0] == p;
    assert [p][..0] == [];
    assert ResolveParents(reg, data, resolved, [], rank(t), rank, width) == (map[], resolved);
  }

  /** Whatever `getOverwrites` returns, merged or not, is a faithful entry. */
  lemma {:induction false} ResolveIsFaithful(reg: Registry, raw: Table, data: Table, resolved: seq<TypeName>, t: TypeName,
                                             rank: TypeName -> nat, width: nat)
    requires Acyclic(reg, rank, width) && SingleInheritance(reg)
    requires Faithful(reg, raw, data, rank, width)
    ensures
      var r := Resolve(reg, data, resolved, t, rank, width).overwrites;
      r.Some? ==> FaithfulEntry(reg, raw, t, r.value, rank, width)
    decreases rank(t)
  {
    if t !in resolved && t in reg && reg[t].Some? {
      var parents := reg[t].value;
      assert parents == Extends(reg, t);
      var inherited: Fields := map[];
      if parents == [] {
        assert ResolveParents(reg, data, resolved, parents, rank(t), rank, width) == (map[], resolved);
      } else {
        var p := parents[0];
        assert parents == [p];
        ResolveOneParent(reg, data, resolved, t, p, rank, width);
        ResolveIsFaithful(reg, raw, data, resolved, p, rank, width);
        inherited := Assign(map[], Resolve(reg, data, resolved, p, rank, width).overwrites);
      }
      forall f | f in Assign(inherited, Lookup(data, t))
        ensures Nearest(reg, raw, t, f, rank, width) == Some(Assign(inherited, Lookup(data, t))[f])
      {
        NearestStep(reg, raw, t, f, rank, width);
      }
    }
  }

  lemma {:induction false} RewriteIsFaithful(reg: Registry, raw: Table, data: Table, order: seq<TypeName>,
                                                  rank: TypeName -> nat, width: nat)
    requires Acyclic(reg, rank, width) && SingleInheritance(reg)
    requires Faithful(reg, raw, data, rank, width)
    requires forall t :: t in order ==> t in data
    ensures Faithful(reg, raw, Rewrite(reg, data, order, rank, width).0, rank, width)
    decreases |order|
  {
    if order != [] {
      var last := |order| - 1;
      RewriteIsFaithful(reg, raw, data, order[..last], rank, width);
      var (data', resolved) := Rewrite(reg, data, order[..last], rank, width);
      ResolveIsFaithful(reg, raw, data', resolved, order[last], rank, width);
    }
  }

  lemma RawIsFaithful(reg: Registry, raw: Table, rank: TypeName -> nat, width: nat)
    requires Acyclic(reg, rank, width) && SingleInheritance(reg)
    ensures Faithful(reg, raw, raw, rank, width)
  {
    forall t, f | t in raw && f in raw[t] ensures Nearest(reg, raw, t, f, rank, width) == Some(raw[t][f]) {
      NearestStep(reg, raw, t, f, rank, width);
    }
  }

  /** A faithful table answers the chain lookup like the original. */
  lemma {:induction false} FaithfulNearest(reg: Registry, raw: Table, data: Table, t: TypeName, f: Field,
                                           rank: TypeName -> nat, width: nat)
    requires Acyclic(reg, rank, width) && SingleInheritance(reg)
    requires Faithful(reg, raw, data, rank, width)
    ensures Nearest(reg, data, t, f, rank, width) == Nearest(reg, raw, t, f, rank, width)
    decreases rank(t)
  {
    NearestStep(reg, raw, t, f, rank, width);
    NearestStep(reg, data, t, f, rank, width);
    if !(t in data && f in data[t]) && Extends(reg, t) != [] {
      assert rank(Extends(reg, t)[0]) < rank(t);
      FaithfulNearest(reg, raw, data, Extends(reg, t)[0], f, rank, width);
    }
  }

  lemma FaithfulGet(reg: Registry, raw: Table, data: Table, name: TypeName, rank: TypeName -> nat, width: nat)
    requires Acyclic(reg, rank, width) && SingleInheritance(reg)
    requires Faithful(reg, raw, data, rank, width)
    ensures Inherited(reg, data, name, rank, width) == Inherited(reg, raw, name, rank, width)
  {
    var names := [name] + ParentTypes(reg, name, rank, width);
    forall f ensures Lookup(Fold(names, data), f) == Lookup(Fold(names, raw), f) {
      FoldIsNearest(reg, data, name, f, rank, width);
      FoldIsNearest(reg, raw, name, f, rank, width);
      FaithfulNearest(reg, raw, data, name, f, rank, width);
    }
    SameLookups(Fold(names, data), Fold(names, raw));
  }

  lemma SameLookups(a: Fields, b: Fields)
    requires forall f :: Lookup(a, f) == Lookup(b, f)
    ensures a == b
  {
    forall f ensures f in a <==> f in b {
      assert Lookup(a, f) == Lookup(b, f);
    }
    forall f | f in a ensures a[f] == b[f] {
      assert Lookup(a, f) == Lookup(b, f);
    }
  }

  /**
   * After `setPlainData`, in whatever order the table is enumerated, `get` gives each field the
   * value of the nearest type on the chain whose original entry sets it.
   */
  lemma GetIsNearest(reg: Registry, raw: Table, order: seq<TypeName>, name: TypeName, rank: TypeName -> nat, width: nat)
    requires Acyclic(reg, rank, width) && SingleInheritance(reg)
    requires forall t :: t in order ==> t in raw
    ensures
      var found := Inherited(reg, Rewrite(reg, raw, order, rank, width).0, name, rank, width);
      && (found.Some? <==> exists t :: t in [name] + Chain(reg, name, rank, width) && t in raw)
      && (found.Some? ==> forall f :: Lookup(found.value, f) == Nearest(reg, raw, name, f, rank, width))
  {
    var data := Rewrite(reg, raw, order, rank, width).0;
    RawIsFaithful(reg, raw, rank, width);
    RewriteIsFaithful(reg, raw, raw, order, rank, width);
    var names := [name] + ParentTypes(reg, name, rank, width);
    var chain := [name] + Chain(reg, name, rank, width);
    ListingStartsWithChain(reg, name, rank, width);
    assert forall t :: t in names <==> t in chain;
    forall f ensures Lookup(Fold(names, data), f) == Nearest(reg, raw, name, f, rank, width) {
      FoldIsNearest(reg, data, name, f, rank, width);
      FaithfulNearest(reg, raw, data, name, f, rank, width);
    }
  }

  /** Two enumeration orders of the same table answer every lookup alike. */
  lemma OrderDoesNotMatter(reg: Registry, raw: Table, order: seq<TypeName>, order': seq<TypeName>, name: TypeName,
                           rank: TypeName -> nat, width: nat)
    requires Acyclic(reg, rank, width) && SingleInheritance(reg)
    requires forall t :: t in order ==> t in raw
    requires forall t :: t in order' ==> t in raw
    ensures Inherited(reg, Rewrite(reg, raw, order, rank, width).0, name, rank, width)
         == Inherited(reg, Rewrite(reg, raw, order', rank, width).0, name, rank, width)
  {
    RawIsFaithful(reg, raw, rank, width);
    RewriteIsFaithful(reg, raw, raw, order, rank, width);
    RewriteIsFaithful(reg, raw, raw, order', rank, width);
    FaithfulGet(reg, raw, Rewrite(reg, raw, order, rank, width).0, name, rank, width);
    FaithfulGet(reg, raw, Rewrite(reg, raw, order', rank, width).0, name, rank, width);
  }

  /** Rewriting an already rewritten table, as a save and a reload do, leaves every lookup unchanged. */
  lemma RewritingTwiceIsRewritingOnce(reg: Registry, raw: Table, order: seq<TypeName>, order': seq<TypeName>,
                                      name: TypeName,
                                      rank: TypeName -> nat, width: nat)
    requires Acyclic(reg, rank, width) && SingleInheritance(reg)
    requires forall t :: t in order ==> t in raw
    requires forall t :: t in order' ==> t in raw
    ensures
      var once := Rewrite(reg, raw, order, rank, width).0;
      var twice := Rewrite(reg, once, order', rank, width).0;
      Inherited(reg, twice, name, rank, width) == Inherited(reg, once, name, rank, width)
  {
    var once := Rewrite(reg, raw, order, rank, width).0;
    RawIsFaithful(reg, raw, rank, width);
    RewriteIsFaithful(reg, raw, raw, order, rank, width);
    RewriteIsFaithful(reg, raw, once, order', rank, width);
    FaithfulGet(reg, raw, once, name, rank, width);
    FaithfulGet(reg, raw, Rewrite(reg, once, order', rank, width).0, name, rank, width);
  }

  // ---------------------------------------------------------------------
  // Any number of parents
  // ---------------------------------------------------------------------

  lemma {:induction false} FirstSettingSome(names: seq<TypeName>, data: Table, f: Field) returns (t: TypeName)
    requires FirstSetting(names, data, f).Some?
    ensures t in names && t in data && f in data[t] && FirstSetting(names, data, f).value == data[t][f]
  {
    if names[0] in data && f in data[names[0]] {
      t := names[0];
    } else {
      t := FirstSettingSome(names[1..], data, f);
    }
  }

  ghost predicate SelfOrAncestor(reg: Registry, u: TypeName, t: TypeName) {
    u == t || StrictAncestor(reg, u, t)
  }

  lemma GetFromIsFirstSetting(names: seq<TypeName>, data: Table, f: Field)
    ensures
      var found := GetFrom(names, data);
      && ((found.Some? && f in found.value) <==> FirstSetting(names, data, f).Some?)
      && (found.Some? && f in found.value ==> FirstSetting(names, data, f).value == found.value[f])
  {
    FoldIsFirstSetting(names, data, f);
    if FirstSetting(names, data, f).Some? {
      var t := FirstSettingSome(names, data, f);
    }
  }

  // ---------------------------------------------------------------------
  // What does depend on the order
  // ---------------------------------------------------------------------

  /** child extends middle extends root. */
  function ThreeLevels(): Registry {
    map["child" := Some(["middle"]), "middle" := Some(["root"]), "root" := None]
  }

  function LevelRank(t: TypeName): nat {
    if t == "child" then 2 else if t == "middle" then 1 else 0
  }

  lemma RewriteStep(reg: Registry, raw: Table, order: seq<TypeName>, t: TypeName, rank: TypeName -> nat, width: nat)
    requires Acyclic(reg, rank, width)
    ensures
      var (data, resolved) := Rewrite(reg, raw, order, rank, width);
      var r := Resolve(reg, data, resolved, t, rank, width);
      Rewrite(reg, raw, order + [t], rank, width) == (Store(data, t, r.overwrites), r.resolved)
  {
    assert (order + [t])[..|order|] == order;
  }

  function LevelTable(): Table {
    map["child" := map["c" := Text("1")], "middle" := map[], "root" := map["r" := Text("2")]]
  }

  lemma MiddleFirst()
    requires Acyclic(ThreeLevels(), LevelRank, 1)
    ensures Lookup(Rewrite(ThreeLevels(), LevelTable(), ["middle"] + ["child"], LevelRank, 1).0, "middle")
         == Some(map["r" := Text("2")])
  {
    var reg, raw := ThreeLevels(), LevelTable();
    assert Rewrite(reg, raw, [], LevelRank, 1) == (raw, []);
    ResolveOneParent(reg, raw, [], "middle", "root", LevelRank, 1);
    RewriteStep(reg, raw, [], "middle", LevelRank, 1);
    assert [] + ["middle"] == ["middle"];
    assert Assign(Assign(map[], Some(map["r" := Text("2")])), Some(map[])) == map["r" := Text("2")];
    RewriteStep(reg, raw, ["middle"], "child", LevelRank, 1);
  }

  lemma ChildFirst()
    requires Acyclic(ThreeLevels(), LevelRank, 1)
    ensures Lookup(Rewrite(ThreeLevels(), LevelTable(), ["child"] + ["middle"], LevelRank, 1).0, "middle") == Some(map[])
  {
    var reg, raw := ThreeLevels(), LevelTable();
    assert Rewrite(reg, raw, [], LevelRank, 1) == (raw, []);
    ResolveOneParent(reg, raw, [], "middle", "root", LevelRank, 1);
    ResolveOneParent(reg, raw, [], "child", "middle", LevelRank, 1);
    RewriteStep(reg, raw, [], "child", LevelRank, 1);
    assert [] + ["child"] == ["child"];
    RewriteStep(reg, raw, ["child"], "middle", LevelRank, 1);
  }

  /** The merged entries themselves depend on the enumeration order, even on a chain. */
  lemma MemoDependsOnOrder()
    ensures
      var reg, raw := ThreeLevels(), LevelTable();
      && Acyclic(reg, LevelRank, 1) && SingleInheritance(reg)
      && Lookup(Rewrite(reg, raw, ["middle"] + ["child"], LevelRank, 1).0, "middle") == Some(map["r" := Text("2")])
      && Lookup(Rewrite(reg, raw, ["child"] + ["middle"], LevelRank, 1).0, "middle") == Some(map[])
  {
    assert Acyclic(ThreeLevels(), LevelRank, 1);
    MiddleFirst();
    ChildFirst();
  }

  /** `y` extends `x`, and `x` has the two parents `a` and `b`. */
  function TwoParents(y: TypeName, x: TypeName, a: TypeName, b: TypeName): Registry {
    map[y := Some([x]), x := Some([a, b]), a := None, b := None]
  }

  ghost predicate Distinct4(y: TypeName, x: TypeName, a: TypeName, b: TypeName) {
    y != x && y != a && y != b && x != a && x != b && a != b
  }

  function Rank3(y: TypeName, x: TypeName): TypeName -> nat {
    t => if t == y then 2 else if t == x then 1 else 0
  }

  /** With two parents the lookup itself depends on the enumeration order, so single inheritance is needed. */
  lemma TwoParentsDependOnOrder(y: TypeName, x: TypeName, a: TypeName, b: TypeName, f: Field)
    requires Distinct4(y, x, a, b)
    ensures
      var reg, rank := TwoParents(y, x, a, b), Rank3(y, x);
      var raw: Table := map[x := map[], y := map[], a := map[f := Text("a")], b := map[f := Text("b")]];
      && Acyclic(reg, rank, 2)
      && Inherited(reg, Rewrite(reg, raw, [x], rank, 2).0, x, rank, 2) == Some(map[f := Text("b")])
      && Inherited(reg, Rewrite(reg, raw, [y] + [x], rank, 2).0, x, rank, 2) == Some(map[f := Text("a")])
  {
    var reg, rank := TwoParents(y, x, a, b), Rank3(y, x);
    var fa: Fields, fb: Fields := map[f := Text("a")], map[f := Text("b")];
    var raw: Table := map[x := map[], y := map[], a := fa, b := fb];
    assert Acyclic(reg, rank, 2);
    assert fa.Keys == {f} && fb.Keys == {f} && f in {f};
    XFirst(reg, raw, x, a, b, rank, 2);
    YFirst(reg, raw, y, x, a, b, rank, 2);
    TwoParentsLookup(reg, raw, raw[x := fb], x, a, b, f, rank, 2);
    TwoParentsLookup(reg, raw, raw[y := fb], x, a, b, f, rank, 2);
  }

  lemma TwoParentsLookup(reg: Registry, raw: Table, data: Table, x: TypeName, a: TypeName, b: TypeName, f: Field,
                         rank: TypeName -> nat, width: nat)
    requires Acyclic(reg, rank, width)
    requires Extends(reg, x) == [a, b] && Extends(reg, a) == [] && Extends(reg, b) == []
    requires x in data && a in data && b in data
    requires data[x].Keys <= {f} && data[a].Keys == {f} && data[b].Keys == {f}
    ensures Inherited(reg, data, x, rank, width) == Some(if f in data[x] then data[x] else data[a])
  {
    ListingOfTwoLeaves(reg, x, a, b, rank, width);
    assert [x] + [a, b] == [x, a, b];
    assert x in [x, a, b];
    FoldOfThree(x, a, b, data);
    if f in data[x] {
      assert Fold([x, a, b], data) == data[x];
    } else {
      assert Fold([x, a, b], data) == data[a];
    }
  }

  /** Enumerating `x` first merges both parents into its entry, the last one on top. */
  lemma XFirst(reg: Registry, raw: Table, x: TypeName, a: TypeName, b: TypeName, rank: TypeName -> nat, width: nat)
    requires Acyclic(reg, rank, width)
    requires x in reg && reg[x] == Some([a, b]) && a in reg && reg[a] == None && b in reg && reg[b] == None && a != b
    requires x in raw && raw[x] == map[] && a in raw && b in raw && raw[a].Keys == raw[b].Keys != {}
    ensures Rewrite(reg, raw, [x], rank, width).0 == raw[x := raw[b]]
  {
    assert Rewrite(reg, raw, [], rank, width) == (raw, []);
    ResolveTwoLeaves(reg, raw, [], x, a, b, rank, width);
    RewriteStep(reg, raw, [], x, rank, width);
    assert [] + [x] == [x];
    assert Assign(Assign(Assign(map[], Some(raw[a])), Some(raw[b])), Some(raw[x])) == raw[b];
  }

  /** Enumerating a child of `x` first marks `x` as resolved without storing anything in its entry. */
  lemma YFirst(reg: Registry, raw: Table, y: TypeName, x: TypeName, a: TypeName, b: TypeName, rank: TypeName -> nat,
               width: nat)
    requires Acyclic(reg, rank, width)
    requires y in reg && reg[y] == Some([x]) && y != a && y != b && y != x
    requires x in reg && reg[x] == Some([a, b]) && a in reg && reg[a] == None && b in reg && reg[b] == None && a != b
    requires y in raw && raw[y] == map[]
    requires x in raw && raw[x] == map[] && a in raw && b in raw && raw[a].Keys == raw[b].Keys != {}
    ensures Rewrite(reg, raw, [y] + [x], rank, width).0 == raw[y := raw[b]]
  {
    assert Rewrite(reg, raw, [], rank, width) == (raw, []);
    ResolveTwoLeaves(reg, raw, [], x, a, b, rank, width);
    ResolveOneParent(reg, raw, [], y, x, rank, width);
    RewriteStep(reg, raw, [], y, rank, width);
    assert [] + [y] == [y];
    assert Assign(Assign(Assign(map[], Some(raw[a])), Some(raw[b])), Some(raw[x])) == raw[b];
    assert Assign(Assign(map[], Some(raw[b])), Some(raw[y])) == raw[b];
    RewriteStep(reg, raw, [y], x, rank, width);
  }

  lemma ResolveTwoLeaves(reg: Registry, data: Table, resolved: seq<TypeName>, x: TypeName, a: TypeName, b: TypeName,
                         rank: TypeName -> nat, width: nat)
    requires Acyclic(reg, rank, width)
    requires x in reg && reg[x] == Some([a, b]) && a in reg && reg[a] == None && b in reg && reg[b] == None && a != b
    requires x !in resolved && a !in resolved && b !in resolved
    ensures Resolve(reg, data, resolved, x, rank, width)
         == Resolution(Some(Assign(Assign(Assign(map[], Lookup(data, a)), Lookup(data, b)), Lookup(data, x))),
                       ((resolved + [a]) + [b]) + [x])
  {
    assert Extends(reg, x) == [a, b];
    assert [a, b][..1] == [a] && [a][..0] == [] && [a, b][1] == b && [a][0] == a;
    assert ResolveParents(reg, data, resolved, [], rank(x), rank, width) == (map[], resolved);
    assert Below([a], rank, rank(x)) && Below([a, b], rank, rank(x));
    assert ResolveParents(reg, data, resolved, [a], rank(x), rank, width) == (Assign(map[], Lookup(data, a)), resolved + [a]);
    assert ResolveParents(reg, data, resolved, [a, b], rank(x), rank, width)
        == (Assign(Assign(map[], Lookup(data, a)), Lookup(data, b)), (resolved + [a]) + [b]);
  }

  lemma ListingOfTwoLeaves(reg: Registry, x: TypeName, a: TypeName, b: TypeName, rank: TypeName -> nat, width: nat)
    requires Acyclic(reg, rank, width)
    requires Extends(reg, x) == [a, b] && Extends(reg, a) == [] && Extends(reg, b) == []
    ensures ParentTypes(reg, x, rank, width) == [a, b]
  {
    var n := rank(x);
    assert Below([a, b], rank, n);
    assert [a, b][0] == a && [a, b][1] == b;
    assert Below([b], rank, n) && Below([], rank, n);
    assert [a, b][1..] + [] == [b] && [b][1..] + [] == [];
    assert Walk(reg, [], n, rank, width) == [];
    assert Walk(reg, [b], n, rank, width) == [b] + Walk(reg, [b][1..] + ParentTypes(reg, b, rank, width), n, rank, width);
    assert Walk(reg, [a, b], n, rank, width) == [a] + Walk(reg, [a, b][1..] + ParentTypes(reg, a, rank, width), n, rank, width);
  }

  lemma FoldOfThree(x: TypeName, y: TypeName, z: TypeName, data: Table)
    ensures Fold([x, y, z], data) == Assign(Assign(Assign(map[], Lookup(data, z)), Lookup(data, y)), Lookup(data, x))
  {
    assert [x, y, z][1..] == [y, z] && [y, z][1..] == [z] && [z][1..] == [];
    assert Fold([], data) == map[];
    assert Fold([z], data) == Assign(map[], Lookup(data, z));
    assert Fold([y, z], data) == Assign(Fold([z], data), Lookup(data, y));
  }

  // ---------------------------------------------------------------------
  // Applying overwrites to stored data
  // ---------------------------------------------------------------------

  /** null, undefined, or the empty string */
  predicate IsEmpty(v: Option<Value>) {
    v == None || v == Some(Null) || v == Some(Text(""))
  }

  /** A field of a skip-listed type that the user has set to something else. */
  predicate Customized(data: Fields, overwrites: Fields, key: Field)
    requires key in overwrites
  {
    !IsEmpty(Lookup(data, key)) && data[key] != overwrites[key]
  }

  /** Only empty fields take the overwrite. */
  function FillEmpty(data: Fields, overwrites: Fields): Fields {
    map k | k in data.Keys + overwrites.Keys ::
      if k in overwrites && IsEmpty(Lookup(data, k)) then overwrites[k] else data[k]
  }

  function ApplyOverwrites(data: Fields, overwrites: Option<Fields>, skipListed: bool): Fields {
    if overwrites.None? then data
    else if skipListed && exists k :: k in overwrites.value && Customized(data, overwrites.value, k) then data
    else FillEmpty(data, overwrites.value)
  }

  /** Applying the same overwrites again changes nothing, skip-listed or not. */
  lemma ApplyTwiceIsApplyOnce(data: Fields, overwrites: Option<Fields>, skipListed: bool)
    ensures ApplyOverwrites(ApplyOverwrites(data, overwrites, skipListed), overwrites, skipListed)
         == ApplyOverwrites(data, overwrites, skipListed)
  {
    if overwrites.Some? {
      var o := overwrites.value;
      var filled := FillEmpty(data, o);
      assert FillEmpty(filled, o) == filled;
      if exists k :: k in o && Customized(data, o, k) {
      } else {
        forall k | k in o ensures !Customized(filled, o, k) {
          assert !Customized(data, o, k);
        }
      }
    }
  }

  /** What a user has entered is never replaced, and what is filled in comes from the overwrites. */
  lemma ApplyKeepsEnteredValues(data: Fields, overwrites: Option<Fields>, skipListed: bool, k: Field)
    ensures
      var after := ApplyOverwrites(data, overwrites, skipListed);
      && (!IsEmpty(Lookup(data, k)) ==> Lookup(after, k) == Lookup(data, k))
      && (Lookup(after, k) != Lookup(data, k) ==> overwrites.Some? && Lookup(after, k) == Lookup(overwrites.value, k))
  {
  }

  /** No value, null or the empty string. */
  predicate NothingEntered(data: Fields, k: Field) {
    k !in data || data[k] == Null || data[k] == Text("")
  }

  /**
   * Key by key: an entered value stays; where nothing was entered, the overwrite is filled in. For a skip-listed type this is
   * so exactly when each entered value is that of the overwrite; when one differs, the data stay as they are.
   */
  lemma ApplyFillsExactly(data: Fields, o: Fields, skipListed: bool, k: Field)
    ensures
      var after := ApplyOverwrites(data, Some(o), skipListed);
      var skips := skipListed && exists j :: j in o && !NothingEntered(data, j) && data[j] != o[j];
      && (skips ==> after == data)
      && (!skips ==> after.Keys == data.Keys + o.Keys)
      && (!skips && k in o && NothingEntered(data, k) ==> k in after && after[k] == o[k])
      && (k in data && (k !in o || !NothingEntered(data, k)) ==> k in after && after[k] == data[k])
      && (k !in data && k !in o ==> k !in after)
    ensures ApplyOverwrites(data, None, skipListed) == data
  {
    if j :| j in o && !NothingEntered(data, j) && data[j] != o[j] { assert Customized(data, o, j); }
    if j :| j in o && Customized(data, o, j) { assert !NothingEntered(data, j); }
  }

  // ---------------------------------------------------------------------
  // The service
  // ---------------------------------------------------------------------

  class Overwrites {
    const registry: Registry
    const skipTypes: seq<TypeName>
    ghost const rank: TypeName -> nat
    ghost const width: nat
    var overwriteData: Table
    var resolvedTypes: seq<TypeName>

    ghost predicate Valid() {
      Acyclic(registry, rank, width)
    }

    constructor (registry: Registry, skipTypes: seq<TypeName>, ghost rank: TypeName -> nat, ghost width: nat)
      requires Acyclic(registry, rank, width)
      ensures Valid() && this.registry == registry && this.skipTypes == skipTypes
      ensures this.rank == rank && this.width == width
      ensures overwriteData == map[] && resolvedTypes == []
    {
      this.registry, this.skipTypes, this.rank, this.width := registry, skipTypes, rank, width;
      overwriteData, resolvedTypes := map[], [];
    }

    method GetOverwrites(t: TypeName) returns (r: Option<Fields>)
      requires Valid()
      modifies `resolvedTypes
      ensures Resolution(r, resolvedTypes) == Resolve(registry, overwriteData, old(resolvedTypes), t, rank, width)
      decreases rank(t)
    {
      if t in resolvedTypes { return Lookup(overwriteData, t); }
      if t !in registry { return None; }
      if registry[t].None? {
        resolvedTypes := resolvedTypes + [t];
        return Lookup(overwriteData, t);
      }
      var parents := registry[t].value;
      assert parents == Extends(registry, t);
      var overwrites: Fields := map[];
      for i := 0 to |parents|
        invariant (overwrites, resolvedTypes)
               == ResolveParents(registry, overwriteData, old(resolvedTypes), parents[..i], rank(t), rank, width)
      {
        assert parents[..i + 1][..i] == parents[..i] && parents[..i + 1][i] == parents[i];
        var inherited := GetOverwrites(parents[i]);
        overwrites := Assign(overwrites, inherited);
      }
      assert parents[..|parents|] == parents;
      overwrites := Assign(overwrites, Lookup(overwriteData, t));
      resolvedTypes := resolvedTypes + [t];
      return Some(overwrites);
    }

    /** `order` is the order in which the keys of the table are enumerated. */
    method SetPlainData(data: Table, order: seq<TypeName>)
      requires Valid()
      requires forall t :: t in order <==> t in data
      modifies this
      ensures (overwriteData, resolvedTypes) == Rewrite(registry, data, order, rank, width)
    {
      resolvedTypes := [];
      overwriteData := data;
      for i := 0 to |order|
        invariant (overwriteData, resolvedTypes)
               == Rewrite(registry, data, order[..i], rank, width)
      {
        assert order[..i + 1][..i] == order[..i];
        var overwrites := GetOverwrites(order[i]);
        if overwrites.Some? && overwrites.value != map[] {
          overwriteData := overwriteData[order[i] := overwrites.value];
        }
      }
      assert order[..|order|] == order;
    }

    method Get(name: TypeName) returns (r: Option<Fields>)
      requires Valid()
      ensures r == Inherited(registry, overwriteData, name, rank, width)
    {
      var parentTypes := GetParentTypes(registry, name, rank, width);
      r := GetFrom([name] + parentTypes, overwriteData);
    }

    method ApplyOverwrite(name: TypeName, data: Fields) returns (r: Fields)
      requires Valid()
      ensures r == ApplyOverwrites(data, Inherited(registry, overwriteData, name, rank, width), name in skipTypes)
    {
      var overwrites := Get(name);
      if overwrites.None? { return data; }
      var o := overwrites.value;
      if name in skipTypes && exists k :: k in o && Customized(data, o, k) { return data; }
      r := Fill(data, o);
    }

    static method Fill(data: Fields, o: Fields) returns (r: Fields)
      ensures r == FillEmpty(data, o)
    {
      r := data;
      var keys := o.Keys;
      while keys != {}
        invariant keys <= o.Keys
        invariant r.Keys == data.Keys + (o.Keys - keys)
        invariant forall k :: k in r ==>
          r[k] == if k in o && k !in keys && IsEmpty(Lookup(data, k)) then o[k] else data[k]
      {
        var k :| k in keys;
        keys := keys - {k};
        if IsEmpty(Lookup(r, k)) { r := r[k := o[k]]; }
      }
    }
  }
}
