/**
 * Which settings of a field a lookup can find when credential types have several parents
 * (packages/cli/src/credentials-overwrites.ts, packages/cli/src/credential-types.ts).
 */
module ExposedSettings {
  import opened Common
  import opened CredentialTypes
  import opened CredentialsOverwrites

  /** The type's own original entry sets the field. */
  predicate Sets(raw: Table, t: TypeName, f: Field) {
    t in raw && f in raw[t]
  }

  /** A way up from `t` to `u` with no setting of the field before `u`. */
  ghost predicate FreePath(reg: Registry, raw: Table, f: Field, path: seq<TypeName>, t: TypeName, u: TypeName) {
    && path != [] && path[0] == t && path[|path| - 1] == u && IsPath(reg, path)
    && forall i :: 0 <= i < |path| - 1 ==> !Sets(raw, path[i], f)
  }

  /** `u` is `t` or an ancestor, sets the field, and on some way up to it no other type does. */
  ghost predicate Exposed(reg: Registry, raw: Table, f: Field, t: TypeName, u: TypeName) {
    Sets(raw, u, f) && exists path :: FreePath(reg, raw, f, path, t, u)
  }

  /** Some exposed setting has this value. */
  ghost predicate Shows(reg: Registry, raw: Table, f: Field, t: TypeName, v: Value) {
    exists u :: Exposed(reg, raw, f, t, u) && raw[u][f] == v
  }

  lemma OwnSettingIsExposed(reg: Registry, raw: Table, f: Field, t: TypeName)
    requires Sets(raw, t, f)
    ensures Exposed(reg, raw, f, t, t)
  {
    assert FreePath(reg, raw, f, [t], t, t);
  }

  lemma OwnSettingHidesOthers(reg: Registry, raw: Table, f: Field, t: TypeName, v: Value)
    requires Sets(raw, t, f) && Shows(reg, raw, f, t, v)
    ensures v == raw[t][f]
  {
    var u :| Exposed(reg, raw, f, t, u) && raw[u][f] == v;
    var path :| FreePath(reg, raw, f, path, t, u);
    assert |path| == 1;
  }

  /** What shows at the end of a free path shows at its start. */
  lemma ShowsAlong(reg: Registry, raw: Table, f: Field, path: seq<TypeName>, a: TypeName, t: TypeName, v: Value)
    requires FreePath(reg, raw, f, path, a, t) && Shows(reg, raw, f, t, v)
    ensures Shows(reg, raw, f, a, v)
  {
    var u :| Exposed(reg, raw, f, t, u) && raw[u][f] == v;
    var more :| FreePath(reg, raw, f, more, t, u);
    assert FreePath(reg, raw, f, path + more[1..], a, u);
  }

  lemma ShowsFromParent(reg: Registry, raw: Table, f: Field, t: TypeName, p: TypeName, v: Value)
    requires p in Extends(reg, t) && !Sets(raw, t, f) && Shows(reg, raw, f, p, v)
    ensures Shows(reg, raw, f, t, v)
  {
    assert FreePath(reg, raw, f, [t, p], t, p);
    ShowsAlong(reg, raw, f, [t, p], t, p, v);
  }

  // ---------------------------------------------------------------------
  // Resolving and rewriting
  // ---------------------------------------------------------------------

  /** The field has an exposed setting's value in this entry for `t`, and is there when `t` sets it. */
  ghost predicate EntryShows(reg: Registry, raw: Table, f: Field, t: TypeName, entry: Fields) {
    && (Sets(raw, t, f) ==> f in entry)
    && (f in entry ==> Shows(reg, raw, f, t, entry[f]))
  }

  ghost predicate TableShows(reg: Registry, raw: Table, f: Field, data: Table) {
    data.Keys == raw.Keys && forall t :: t in raw ==> EntryShows(reg, raw, f, t, data[t])
  }

  lemma {:induction false} ResolveShows(reg: Registry, raw: Table, f: Field, data: Table, resolved: seq<TypeName>,
                                        t: TypeName, rank: TypeName -> nat, width: nat)
    requires Acyclic(reg, rank, width) && TableShows(reg, raw, f, data)
    ensures
      var r := Resolve(reg, data, resolved, t, rank, width).overwrites;
      r.Some? ==> EntryShows(reg, raw, f, t, r.value)
    decreases rank(t), 1, 0
  {
    if t !in resolved && t in reg && reg[t].Some? && !Sets(raw, t, f) {
      ParentsShow(reg, raw, f, data, resolved, t, reg[t].value, rank, width);
    }
  }

  lemma AssignShows(reg: Registry, raw: Table, f: Field, t: TypeName, p: TypeName, acc: Fields, more: Option<Fields>)
    requires p in Extends(reg, t) && !Sets(raw, t, f) && EntryShows(reg, raw, f, t, acc)
    requires more.Some? ==> EntryShows(reg, raw, f, p, more.value)
    ensures EntryShows(reg, raw, f, t, Assign(acc, more))
  {
    if more.Some? && f in more.value { ShowsFromParent(reg, raw, f, t, p, more.value[f]); }
  }

  lemma {:induction false} ParentsShow(reg: Registry, raw: Table, f: Field, data: Table, resolved: seq<TypeName>,
                                       t: TypeName, parents: seq<TypeName>, rank: TypeName -> nat, width: nat)
    requires Acyclic(reg, rank, width) && TableShows(reg, raw, f, data) && !Sets(raw, t, f)
    requires Below(parents, rank, rank(t)) && forall p :: p in parents ==> p in Extends(reg, t)
    ensures EntryShows(reg, raw, f, t, ResolveParents(reg, data, resolved, parents, rank(t), rank, width).0)
    decreases rank(t), 0, |parents|
  {
    if parents != [] {
      var last := |parents| - 1;
      var p := parents[last];
      assert p in Extends(reg, t) && rank(p) < rank(t);
      ParentsShow(reg, raw, f, data, resolved, t, parents[..last], rank, width);
      var (acc, resolved') := ResolveParents(reg, data, resolved, parents[..last], rank(t), rank, width);
      ResolveShows(reg, raw, f, data, resolved', p, rank, width);
      AssignShows(reg, raw, f, t, p, acc, Resolve(reg, data, resolved', p, rank, width).overwrites);
    }
  }

  lemma {:induction false} RewriteShows(reg: Registry, raw: Table, f: Field, order: seq<TypeName>,
                                        rank: TypeName -> nat, width: nat)
    requires Acyclic(reg, rank, width) && forall t :: t in order ==> t in raw
    ensures TableShows(reg, raw, f, Rewrite(reg, raw, order, rank, width).0)
    decreases |order|
  {
    if order == [] {
      forall t | t in raw ensures EntryShows(reg, raw, f, t, raw[t]) {
        if f in raw[t] { OwnSettingIsExposed(reg, raw, f, t); }
      }
    } else {
      var last := |order| - 1;
      RewriteShows(reg, raw, f, order[..last], rank, width);
      var (data, resolved) := Rewrite(reg, raw, order[..last], rank, width);
      ResolveShows(reg, raw, f, data, resolved, order[last], rank, width);
    }
  }

  // ---------------------------------------------------------------------
  // The listing
  // ---------------------------------------------------------------------

  /** Every name but the first is a direct parent of an earlier one. */
  ghost predicate Grounded(reg: Registry, names: seq<TypeName>) {
    forall k :: 0 < k < |names| ==> HasChild(reg, names[..k], names[k])
  }

  ghost predicate HasChild(reg: Registry, names: seq<TypeName>, t: TypeName) {
    exists c :: c in names && t in Extends(reg, c)
  }

  lemma HasChildAmongMore(reg: Registry, names: seq<TypeName>, more: seq<TypeName>, t: TypeName)
    requires HasChild(reg, names, t) && forall c :: c in names ==> c in more
    ensures HasChild(reg, more, t)
  {
  }

  lemma GroundedConcat(reg: Registry, a: seq<TypeName>, x: TypeName, b: seq<TypeName>)
    requires Grounded(reg, a) && x in a && Grounded(reg, [x] + b)
    ensures Grounded(reg, a + b)
  {
    var ab, xb := a + b, [x] + b;
    forall k | 0 < k < |ab| ensures HasChild(reg, ab[..k], ab[k]) {
      if k < |a| {
        assert ab[..k] == a[..k];
      } else {
        var m := k - |a|;
        assert xb[m + 1] == ab[k] && xb[..m + 1] == [x] + b[..m] && ab[..k] == a + b[..m];
        HasChildAmongMore(reg, xb[..m + 1], ab[..k], ab[k]);
      }
    }
  }

  lemma {:induction false} ListingIsGrounded(reg: Registry, t: TypeName, rank: TypeName -> nat, width: nat)
    requires Acyclic(reg, rank, width)
    ensures Grounded(reg, [t] + ParentTypes(reg, t, rank, width))
    decreases rank(t), 1, 0
  {
    var direct := Extends(reg, t);
    if direct != [] {
      forall k | 0 < k < |[t] + direct| ensures HasChild(reg, ([t] + direct)[..k], ([t] + direct)[k]) {
        assert ([t] + direct)[..k][0] == t && ([t] + direct)[k] == direct[k - 1];
      }
      assert rank(direct[0]) < rank(t);
      WalkIsGrounded(reg, [t], direct, rank(t), rank, width);
    }
  }

  lemma {:induction false} WalkIsGrounded(reg: Registry, done: seq<TypeName>, q: seq<TypeName>, bound: nat,
                                          rank: TypeName -> nat, width: nat)
    requires Acyclic(reg, rank, width) && Below(q, rank, bound) && Grounded(reg, done + q)
    ensures Grounded(reg, done + Walk(reg, q, bound, rank, width))
    decreases bound, 0, TotalVisits(q, rank, width)
  {
    if q != [] {
      var listing := ParentTypes(reg, q[0], rank, width);
      WorkShrinks(q, listing, rank, width);
      ListingIsGrounded(reg, q[0], rank, width);
      GroundedConcat(reg, done + q, q[0], listing);
      MoveOne(done, q, listing);
      WalkIsGrounded(reg, done + [q[0]], q[1..] + listing, bound, rank, width);
      Reassociate(done, q[0], Walk(reg, q[1..] + listing, bound, rank, width));
    }
  }

  /** A way up to a name of the listing through names before it. */
  ghost predicate EarlierPath(reg: Registry, names: seq<TypeName>, k: nat, path: seq<TypeName>)
    requires k < |names|
  {
    && path != [] && path[0] == names[0] && path[|path| - 1] == names[k] && IsPath(reg, path)
    && forall i :: 0 <= i < |path| - 1 ==> path[i] in names[..k]
  }

  lemma EarlierPathStep(reg: Registry, names: seq<TypeName>, j: nat, k: nat, path: seq<TypeName>)
    requires j < k < |names| && EarlierPath(reg, names, j, path) && names[k] in Extends(reg, names[j])
    ensures EarlierPath(reg, names, k, path + [names[k]])
  {
    var longer := path + [names[k]];
    assert names[..j] <= names[..k] && names[..k][j] == names[j];
    forall i | 0 <= i < |path| ensures longer[i] in names[..k] && longer[i + 1] in Extends(reg, longer[i]) {
      if i < |path| - 1 { assert path[i] in names[..j] && path[i + 1] in Extends(reg, path[i]); }
    }
  }

  lemma {:induction false} PathThroughEarlier(reg: Registry, names: seq<TypeName>, k: nat) returns (path: seq<TypeName>)
    requires Grounded(reg, names) && k < |names|
    ensures EarlierPath(reg, names, k, path)
    decreases k
  {
    if k == 0 {
      path := [names[0]];
    } else {
      assert HasChild(reg, names[..k], names[k]);
      var c :| c in names[..k] && names[k] in Extends(reg, c);
      var j :| 0 <= j < k && names[j] == c;
      path := PathThroughEarlier(reg, names, j);
      EarlierPathStep(reg, names, j, k, path);
      path := path + [names[k]];
    }
  }

  /** The place of the first name whose entry sets the field. */
  lemma {:induction false} FirstHit(names: seq<TypeName>, data: Table, f: Field) returns (k: nat)
    requires FirstSetting(names, data, f).Some?
    ensures k < |names| && Sets(data, names[k], f) && data[names[k]][f] == FirstSetting(names, data, f).value
    ensures forall i :: 0 <= i < k ==> !Sets(data, names[i], f)
  {
    if Sets(data, names[0], f) {
      k := 0;
    } else {
      var j := FirstHit(names[1..], data, f);
      k := j + 1;
    }
  }

  // ---------------------------------------------------------------------
  // The lookup
  // ---------------------------------------------------------------------

  lemma FirstSettingShows(reg: Registry, raw: Table, f: Field, data: Table, names: seq<TypeName>)
    requires TableShows(reg, raw, f, data) && Grounded(reg, names) && FirstSetting(names, data, f).Some?
    ensures names != [] && Shows(reg, raw, f, names[0], FirstSetting(names, data, f).value)
  {
    var k := FirstHit(names, data, f);
    var path := PathThroughEarlier(reg, names, k);
    assert FreePath(reg, raw, f, path, names[0], names[k]);
    ShowsAlong(reg, raw, f, path, names[0], names[k], data[names[k]][f]);
  }

  /** The value that `get(name)` gives the field after `setPlainData` with this enumeration order. */
  ghost function Found(reg: Registry, raw: Table, order: seq<TypeName>, name: TypeName, f: Field, rank: TypeName -> nat,
                       width: nat): Option<Value>
    requires Acyclic(reg, rank, width)
  {
    var fields := Inherited(reg, Rewrite(reg, raw, order, rank, width).0, name, rank, width);
    if fields.Some? then Lookup(fields.value, f) else None
  }

  /**
   * On every acyclic graph, with any number of parents and in any enumeration order: a field is found exactly when name or
   * an ancestor sets it, and has the value of an exposed setting, one that no setting hides on every way up to it.
   */
  lemma GetFindsAnExposedSetting(reg: Registry, raw: Table, order: seq<TypeName>, name: TypeName, f: Field,
                                 rank: TypeName -> nat, width: nat)
    requires Acyclic(reg, rank, width) && forall t :: t in order ==> t in raw
    ensures
      var found := Found(reg, raw, order, name, f, rank, width);
      && (found.Some? <==> exists u :: SelfOrAncestor(reg, u, name) && Sets(raw, u, f))
      && (found.Some? ==> Shows(reg, raw, f, name, found.value))
  {
    var data, names := Rewrite(reg, raw, order, rank, width).0, [name] + ParentTypes(reg, name, rank, width);
    RewriteShows(reg, raw, f, order, rank, width);
    GetFromIsFirstSetting(names, data, f);
    if FirstSetting(names, data, f).Some? {
      ListingIsGrounded(reg, name, rank, width);
      FirstSettingShows(reg, raw, f, data, names);
      var u :| Exposed(reg, raw, f, name, u) && raw[u][f] == FirstSetting(names, data, f).value;
      ExposedIsSelfOrAncestor(reg, raw, f, name, u);
    } else {
      forall u | SelfOrAncestor(reg, u, name) ensures !Sets(raw, u, f) {
        ListingIsStrictAncestors(reg, name, rank, width, u);
        FirstSettingNone(names, data, f, u);
      }
    }
  }

  /**
   * On every acyclic graph, with any number of parents and in any enumeration order, `get(name)` defines exactly
   * the fields that name or an ancestor originally sets, each with the value one of them originally sets.
   */
  lemma GetDefinesInheritedFields(reg: Registry, raw: Table, order: seq<TypeName>, name: TypeName, f: Field,
                                  rank: TypeName -> nat, width: nat)
    requires Acyclic(reg, rank, width)
    requires forall t :: t in order ==> t in raw
    ensures
      var found := Inherited(reg, Rewrite(reg, raw, order, rank, width).0, name, rank, width);
      && ((found.Some? && f in found.value) <==> exists u :: SelfOrAncestor(reg, u, name) && u in raw && f in raw[u])
      && (found.Some? && f in found.value
          ==> exists u :: SelfOrAncestor(reg, u, name) && u in raw && f in raw[u] && raw[u][f] == found.value[f])
  {
    GetFindsAnExposedSetting(reg, raw, order, name, f, rank, width);
    if Found(reg, raw, order, name, f, rank, width).Some? {
      var u :| Exposed(reg, raw, f, name, u) && raw[u][f] == Found(reg, raw, order, name, f, rank, width).value;
      ExposedIsSelfOrAncestor(reg, raw, f, name, u);
    }
  }

  /** The exposed settings of the field all have one value. */
  ghost predicate ExposedAgree(reg: Registry, raw: Table, f: Field, name: TypeName) {
    forall v, w :: Shows(reg, raw, f, name, v) && Shows(reg, raw, f, name, w) ==> v == w
  }

  /** With any number of parents, two enumeration orders find the same value whenever the exposed settings agree. */
  lemma AgreeingSettingsFixTheLookup(reg: Registry, raw: Table, order: seq<TypeName>, order': seq<TypeName>,
                                     name: TypeName, f: Field, rank: TypeName -> nat, width: nat)
    requires Acyclic(reg, rank, width) && ExposedAgree(reg, raw, f, name)
    requires (forall t :: t in order ==> t in raw) && (forall t :: t in order' ==> t in raw)
    ensures Found(reg, raw, order, name, f, rank, width) == Found(reg, raw, order', name, f, rank, width)
  {
    GetFindsAnExposedSetting(reg, raw, order, name, f, rank, width);
    GetFindsAnExposedSetting(reg, raw, order', name, f, rank, width);
  }

  /** So it is when the type itself sets the field, which then has that value, whatever its ancestors set. */
  lemma OwnSettingFixesTheLookup(reg: Registry, raw: Table, order: seq<TypeName>, name: TypeName, f: Field,
                                 rank: TypeName -> nat, width: nat)
    requires Acyclic(reg, rank, width) && Sets(raw, name, f)
    requires forall t :: t in order ==> t in raw
    ensures Found(reg, raw, order, name, f, rank, width) == Some(raw[name][f])
  {
    GetFindsAnExposedSetting(reg, raw, order, name, f, rank, width);
    assert SelfOrAncestor(reg, name, name);
    OwnSettingHidesOthers(reg, raw, f, name, Found(reg, raw, order, name, f, rank, width).value);
  }

  lemma ExposedIsSelfOrAncestor(reg: Registry, raw: Table, f: Field, t: TypeName, u: TypeName)
    requires Exposed(reg, raw, f, t, u)
    ensures SelfOrAncestor(reg, u, t)
  {
    var path :| FreePath(reg, raw, f, path, t, u);
    if |path| > 1 { assert PathTo(reg, path, t, u); }
  }

  lemma {:induction false} SingleWay(reg: Registry, a: seq<TypeName>, b: seq<TypeName>, i: nat)
    requires SingleInheritance(reg) && IsPath(reg, a) && IsPath(reg, b) && i < |a| && i < |b| && a[0] == b[0]
    ensures a[i] == b[i]
    decreases i
  {
    if i > 0 {
      SingleWay(reg, a, b, i - 1);
      assert a[i - 1 + 1] in Extends(reg, a[i - 1]) && b[i - 1 + 1] in Extends(reg, b[i - 1]);
    }
  }

  lemma OneExposedSetting(reg: Registry, raw: Table, f: Field, t: TypeName, u: TypeName, w: TypeName)
    requires SingleInheritance(reg) && Exposed(reg, raw, f, t, u) && Exposed(reg, raw, f, t, w)
    ensures u == w
  {
    var a :| FreePath(reg, raw, f, a, t, u);
    var b :| FreePath(reg, raw, f, b, t, w);
    SingleWay(reg, a, b, if |a| <= |b| then |a| - 1 else |b| - 1);
  }

  /** Every two settings of the field on the type and its ancestors have one value. */
  ghost predicate AllAgree(reg: Registry, raw: Table, f: Field, name: TypeName) {
    forall u, w :: SelfOrAncestor(reg, u, name) && SelfOrAncestor(reg, w, name) && Sets(raw, u, f) && Sets(raw, w, f)
      ==> raw[u][f] == raw[w][f]
  }

  /** Two cases in which the exposed settings agree. */
  lemma WhenSettingsAgree(reg: Registry, raw: Table, f: Field, name: TypeName)
    requires AllAgree(reg, raw, f, name) || SingleInheritance(reg)
    ensures ExposedAgree(reg, raw, f, name)
  {
    forall v, w | Shows(reg, raw, f, name, v) && Shows(reg, raw, f, name, w) ensures v == w {
      var a :| Exposed(reg, raw, f, name, a) && raw[a][f] == v;
      var b :| Exposed(reg, raw, f, name, b) && raw[b][f] == w;
      ExposedIsSelfOrAncestor(reg, raw, f, name, a);
      ExposedIsSelfOrAncestor(reg, raw, f, name, b);
      if SingleInheritance(reg) { OneExposedSetting(reg, raw, f, name, a, b); }
    }
  }

  // ---------------------------------------------------------------------
  // What the table stores when parents come first
  // ---------------------------------------------------------------------

  /** Each listed type is known and has an entry, and its parents are listed before it. */
  predicate ParentsFirst(reg: Registry, raw: Table, order: seq<TypeName>) {
    forall i :: 0 <= i < |order| ==>
      order[i] in reg && order[i] in raw && forall p :: p in Extends(reg, order[i]) ==> p in order[..i]
  }

  /** The entry has every field that the type or an ancestor sets. */
  ghost predicate HasAll(reg: Registry, raw: Table, t: TypeName, entry: Fields) {
    forall u, f :: SelfOrAncestor(reg, u, t) && Sets(raw, u, f) ==> f in entry
  }

  lemma {:induction false} ResolvedParents(reg: Registry, data: Table, resolved: seq<TypeName>, parents: seq<TypeName>,
                                           bound: nat, rank: TypeName -> nat, width: nat)
    requires Acyclic(reg, rank, width) && Below(parents, rank, bound)
    requires forall p :: p in parents ==> p in resolved && p in data
    ensures
      var (acc, resolved') := ResolveParents(reg, data, resolved, parents, bound, rank, width);
      resolved' == resolved && forall p, f :: p in parents && f in data[p] ==> f in acc
    decreases |parents|
  {
    if parents != [] { ResolvedParents(reg, data, resolved, parents[..|parents| - 1], bound, rank, width); }
  }

  lemma AncestorThroughParent(reg: Registry, u: TypeName, t: TypeName) returns (p: TypeName)
    requires SelfOrAncestor(reg, u, t) && u != t
    ensures p in Extends(reg, t) && SelfOrAncestor(reg, u, p)
  {
    var path :| PathTo(reg, path, t, u);
    p := path[1];
    assert path[0 + 1] in Extends(reg, path[0]);
    if |path| > 2 {
      var rest := path[1..];
      forall i | 0 <= i < |rest| - 1 ensures rest[i + 1] in Extends(reg, rest[i]) {
        assert rest[i] == path[i + 1] && path[i + 1 + 1] in Extends(reg, path[i + 1]);
      }
      assert PathTo(reg, rest, p, u);
    }
  }

  lemma ResolveHasAll(reg: Registry, raw: Table, data: Table, resolved: seq<TypeName>, t: TypeName,
                      rank: TypeName -> nat, width: nat)
    requires Acyclic(reg, rank, width) && t in reg && t in raw && data.Keys == raw.Keys
    requires forall f :: f in raw[t] ==> f in data[t]
    requires forall p :: p in Extends(reg, t) ==> p in resolved && p in data && HasAll(reg, raw, p, data[p])
    requires t in resolved ==> HasAll(reg, raw, t, data[t])
    ensures
      var r := Resolve(reg, data, resolved, t, rank, width);
      && r.overwrites.Some? && HasAll(reg, raw, t, r.overwrites.value)
      && forall u :: u in r.resolved <==> u in resolved || u == t
  {
    var r := Resolve(reg, data, resolved, t, rank, width);
    if t !in resolved {
      if reg[t].Some? { ResolvedParents(reg, data, resolved, reg[t].value, rank(t), rank, width); }
      forall u, f | SelfOrAncestor(reg, u, t) && Sets(raw, u, f) ensures f in r.overwrites.value {
        if u != t {
          var p := AncestorThroughParent(reg, u, t);
          assert HasAll(reg, raw, p, data[p]) && f in data[p];
        }
      }
    }
  }

  /** After these types have been enumerated. */
  ghost predicate AllStored(reg: Registry, raw: Table, order: seq<TypeName>, data: Table, resolved: seq<TypeName>) {
    && data.Keys == raw.Keys && (forall u :: u in resolved <==> u in order)
    && (forall t, f :: Sets(raw, t, f) ==> f in data[t])
    && (forall t :: t in order ==> t in raw && HasAll(reg, raw, t, data[t]))
  }

  lemma StoreKeepsAll(reg: Registry, raw: Table, order: seq<TypeName>, t: TypeName, data: Table, resolved: seq<TypeName>,
                      r: Fields, resolved': seq<TypeName>)
    requires AllStored(reg, raw, order, data, resolved) && t in raw && HasAll(reg, raw, t, r)
    requires forall u :: u in resolved' <==> u in resolved || u == t
    ensures AllStored(reg, raw, order + [t], Store(data, t, Some(r)), resolved')
  {
    var data' := Store(data, t, Some(r));
    assert SelfOrAncestor(reg, t, t);
    assert data'[t] == r || r == map[];
    forall u | u in order + [t] ensures u in raw && HasAll(reg, raw, u, data'[u]) {
      if u == t { assert data'[u] == r || data'[u] == data[u]; } else { assert u in order && data'[u] == data[u]; }
    }
  }

  lemma {:induction false} RewriteStoresAll(reg: Registry, raw: Table, order: seq<TypeName>, rank: TypeName -> nat,
                                            width: nat)
    requires Acyclic(reg, rank, width) && ParentsFirst(reg, raw, order)
    ensures
      var (data, resolved) := Rewrite(reg, raw, order, rank, width);
      AllStored(reg, raw, order, data, resolved)
    decreases |order|
  {
    if order != [] {
      var last := |order| - 1;
      var before, t := order[..last], order[last];
      forall i | 0 <= i < last ensures before[i] == order[i] && before[..i] == order[..i] {}
      RewriteStoresAll(reg, raw, before, rank, width);
      var (data, resolved) := Rewrite(reg, raw, before, rank, width);
      ResolveHasAll(reg, raw, data, resolved, t, rank, width);
      var r := Resolve(reg, data, resolved, t, rank, width);
      StoreKeepsAll(reg, raw, before, t, data, resolved, r.overwrites.value, r.resolved);
      assert before + [t] == order;
    }
  }

  /**
   * With any number of parents: when every listed type has an entry and comes after its parents, `setPlainData` stores for
   * each exactly the fields that it or an ancestor sets, each with the value of an exposed setting.
   */
  lemma ParentsFirstStoresEverything(reg: Registry, raw: Table, order: seq<TypeName>, t: TypeName, f: Field,
                                     rank: TypeName -> nat, width: nat)
    requires Acyclic(reg, rank, width) && ParentsFirst(reg, raw, order) && t in order
    ensures
      var data := Rewrite(reg, raw, order, rank, width).0;
      && t in data
      && (f in data[t] <==> exists u :: SelfOrAncestor(reg, u, t) && Sets(raw, u, f))
      && (f in data[t] ==> Shows(reg, raw, f, t, data[t][f]))
  {
    var data := Rewrite(reg, raw, order, rank, width).0;
    RewriteStoresAll(reg, raw, order, rank, width);
    RewriteShows(reg, raw, f, order, rank, width);
    assert EntryShows(reg, raw, f, t, data[t]);
    if f in data[t] {
      var u :| Exposed(reg, raw, f, t, u) && raw[u][f] == data[t][f];
      ExposedIsSelfOrAncestor(reg, raw, f, t, u);
    }
  }
}
