/**
 * The credential type registry and its ancestor listing
 * (packages/cli/src/credential-types.ts).
 */
module CredentialTypes {
  import opened Common

  type TypeName = string

  /**
   * The table of known credential types. A type maps to its `extends` list,
   * or to `None` when its class declares none.
   */
  type Registry = map<TypeName, Option<seq<TypeName>>>

  /** `knownCredentials[t]?.extends ?? []` */
  function Extends(reg: Registry, t: TypeName): seq<TypeName> {
    if t in reg && reg[t].Some? then reg[t].value else []
  }

  /**
   * The extends graph is acyclic: every type sits strictly above its parents.
   * `width` bounds the number of parents of one type.
   */
  ghost predicate Acyclic(reg: Registry, rank: TypeName -> nat, width: nat) {
    forall t :: |Extends(reg, t)| <= width && Below(Extends(reg, t), rank, rank(t))
  }

  ghost predicate Below(ts: seq<TypeName>, rank: TypeName -> nat, bound: nat) {
    forall i :: 0 <= i < |ts| ==> rank(ts[i]) < bound
  }

  /** How often the growing loop can visit anything on account of one type of the given rank. */
  ghost function Visits(width: nat, rank: nat): (v: nat)
    ensures v >= 1
  {
    if rank == 0 then 1 else 1 + (width * Visits(width, rank - 1)) * Visits(width, rank - 1)
  }

  ghost function TotalVisits(ts: seq<TypeName>, rank: TypeName -> nat, width: nat): nat {
    if ts == [] then 0 else Visits(width, rank(ts[0])) + TotalVisits(ts[1..], rank, width)
  }

  lemma VisitsMonotone(width: nat, a: nat, b: nat)
    requires a <= b
    ensures Visits(width, a) <= Visits(width, b)
    decreases b
  {
    if a < b {
      VisitsMonotone(width, a, b - 1);
      var v := Visits(width, b - 1);
      VisitsStep(width, v);
    }
  }

  lemma VisitsStep(width: nat, v: nat)
    requires v >= 1
    ensures v <= 1 + (width * v) * v || width == 0
  {
    if width >= 1 {
      assert (width * v) * v >= v by {
        assert width * v >= 1;
        assert (width * v) * v >= 1 * v;
      }
    }
  }

  lemma TotalVisitsConcat(a: seq<TypeName>, b: seq<TypeName>, rank: TypeName -> nat, width: nat)
    ensures TotalVisits(a + b, rank, width) == TotalVisits(a, rank, width) + TotalVisits(b, rank, width)
  {
    if a == [] {
      assert a + b == b;
    } else {
      assert (a + b)[1..] == a[1..] + b;
      TotalVisitsConcat(a[1..], b, rank, width);
    }
  }

  lemma OneMore(n: nat, v: nat)
    ensures (n + 1) * v == n * v + v
  {
  }

  lemma TotalVisitsBound(ts: seq<TypeName>, rank: TypeName -> nat, width: nat, bound: nat)
    requires bound > 0 && Below(ts, rank, bound)
    ensures TotalVisits(ts, rank, width) <= |ts| * Visits(width, bound - 1)
  {
    if ts != [] {
      TotalVisitsBound(ts[1..], rank, width, bound);
      VisitsMonotone(width, rank(ts[0]), bound - 1);
      OneMore(|ts[1..]|, Visits(width, bound - 1));
    }
  }

  /** The most entries the listing of a type of the given rank can have. */
  ghost function ListingBound(width: nat, rank: nat): nat {
    if rank == 0 then 0 else width * Visits(width, rank - 1)
  }

  /** Replacing a visited type by its whole listing makes the remaining work smaller. */
  lemma WorkShrinks(q: seq<TypeName>, listing: seq<TypeName>, rank: TypeName -> nat, width: nat)
    requires q != [] && Below(listing, rank, rank(q[0]))
    requires |listing| <= ListingBound(width, rank(q[0]))
    ensures TotalVisits(q[1..] + listing, rank, width) < TotalVisits(q, rank, width)
  {
    var r := rank(q[0]);
    TotalVisitsConcat(q[1..], listing, rank, width);
    if r == 0 {
      assert listing == [];
    } else {
      TotalVisitsBound(listing, rank, width, r);
      var v := Visits(width, r - 1);
      assert |listing| * v <= (width * v) * v by { MulMonotone(|listing|, width * v, v); }
    }
  }

  lemma MulMonotone(a: nat, b: nat, c: nat)
    requires a <= b
    ensures a * c <= b * c
  {
  }

  /**
   * What `getParentTypes` returns: the `extends` list, grown while it is being
   * walked by the full listing of every element met on the way.
   */
  ghost function ParentTypes(reg: Registry, t: TypeName, rank: TypeName -> nat, width: nat): (r: seq<TypeName>)
    requires Acyclic(reg, rank, width)
    ensures Below(r, rank, rank(t))
    ensures |r| <= ListingBound(width, rank(t))
    decreases rank(t), 1, 0
  {
    var direct := Extends(reg, t);
    if |direct| == 0 then []
    else
      assert rank(direct[0]) < rank(t);
      TotalVisitsBound(direct, rank, width, rank(t));
      MulMonotone(|direct|, width, Visits(width, rank(t) - 1));
      Walk(reg, direct, rank(t), rank, width)
  }

  /** The growing loop, from a point where `q` is still to be visited. */
  ghost function Walk(reg: Registry, q: seq<TypeName>, bound: nat, rank: TypeName -> nat, width: nat): (r: seq<TypeName>)
    requires Acyclic(reg, rank, width) && Below(q, rank, bound)
    ensures Below(r, rank, bound)
    ensures |r| <= TotalVisits(q, rank, width)
    decreases bound, 0, TotalVisits(q, rank, width)
  {
    if q == [] then []
    else
      var listing := ParentTypes(reg, q[0], rank, width);
      WorkShrinks(q, listing, rank, width);
      [q[0]] + Walk(reg, q[1..] + listing, bound, rank, width)
  }

  // ---------------------------------------------------------------------
  // The listing against the graph
  // ---------------------------------------------------------------------

  /** Every step of the path goes from a type to one of its direct parents. */
  predicate IsPath(reg: Registry, path: seq<TypeName>) {
    forall i :: 0 <= i < |path| - 1 ==> path[i + 1] in Extends(reg, path[i])
  }

  ghost predicate PathTo(reg: Registry, path: seq<TypeName>, t: TypeName, a: TypeName) {
    |path| >= 2 && path[0] == t && path[|path| - 1] == a && IsPath(reg, path)
  }

  /** `a` is reached from `t` by one or more `extends` steps. */
  ghost predicate StrictAncestor(reg: Registry, a: TypeName, t: TypeName) {
    exists path :: PathTo(reg, path, t, a)
  }

  lemma DirectParentIsAncestor(reg: Registry, a: TypeName, t: TypeName)
    requires a in Extends(reg, t)
    ensures StrictAncestor(reg, a, t)
  {
    assert PathTo(reg, [t, a], t, a);
  }

  lemma AncestorTransitive(reg: Registry, a: TypeName, b: TypeName, t: TypeName)
    requires StrictAncestor(reg, a, b) && StrictAncestor(reg, b, t)
    ensures StrictAncestor(reg, a, t)
  {
    var p :| PathTo(reg, p, b, a);
    var q :| PathTo(reg, q, t, b);
    assert PathTo(reg, q + p[1..], t, a);
  }

  /** The walk keeps everything it was given, in place. */
  lemma {:induction false} WalkExtends(reg: Registry, q: seq<TypeName>, bound: nat, rank: TypeName -> nat, width: nat)
    requires Acyclic(reg, rank, width) && Below(q, rank, bound)
    ensures q <= Walk(reg, q, bound, rank, width)
    decreases TotalVisits(q, rank, width)
  {
    if q != [] {
      var listing := ParentTypes(reg, q[0], rank, width);
      WorkShrinks(q, listing, rank, width);
      WalkExtends(reg, q[1..] + listing, bound, rank, width);
      assert q == [q[0]] + q[1..];
    }
  }

  /** Everything in the walk is in the worklist or listed by a member of the walk's worklist, and nothing listed is lost. */
  lemma {:induction false} WalkMembers(reg: Registry, q: seq<TypeName>, bound: nat, rank: TypeName -> nat,
                                       width: nat, x: TypeName)
    requires Acyclic(reg, rank, width) && Below(q, rank, bound)
    requires x in Walk(reg, q, bound, rank, width)
    requires forall y :: rank(y) < bound ==> forall z :: z in ParentTypes(reg, y, rank, width) ==> StrictAncestor(reg, z, y)
    ensures exists y :: y in q && (x == y || StrictAncestor(reg, x, y))
    decreases TotalVisits(q, rank, width)
  {
    var listing := ParentTypes(reg, q[0], rank, width);
    WorkShrinks(q, listing, rank, width);
    var rest := q[1..] + listing;
    if x == q[0] {
      assert q[0] in q;
    } else {
      WalkMembers(reg, rest, bound, rank, width, x);
      var y :| y in rest && (x == y || StrictAncestor(reg, x, y));
      if y in listing && y !in q[1..] {
        if x != y { AncestorTransitive(reg, x, y, q[0]); }
        assert q[0] in q;
      } else {
        assert y in q;
      }
    }
  }

  /** Every entry of the listing is a strict ancestor. */
  lemma {:induction false} ListedAreAncestors(reg: Registry, t: TypeName, rank: TypeName -> nat, width: nat, x: TypeName)
    requires Acyclic(reg, rank, width) && x in ParentTypes(reg, t, rank, width)
    ensures StrictAncestor(reg, x, t)
    decreases rank(t)
  {
    var direct := Extends(reg, t);
    forall y, z | rank(y) < rank(t) && z in ParentTypes(reg, y, rank, width)
      ensures StrictAncestor(reg, z, y)
    {
      ListedAreAncestors(reg, y, rank, width, z);
    }
    WalkMembers(reg, direct, rank(t), rank, width, x);
    var y :| y in direct && (x == y || StrictAncestor(reg, x, y));
    DirectParentIsAncestor(reg, y, t);
    if x != y { AncestorTransitive(reg, x, y, t); }
  }

  /** The walk is closed: it contains the listing of each of its members. */
  lemma {:induction false} WalkClosed(reg: Registry, q: seq<TypeName>, bound: nat, rank: TypeName -> nat, width: nat,
                                      y: TypeName, x: TypeName)
    requires Acyclic(reg, rank, width) && Below(q, rank, bound)
    requires y in q && x in ParentTypes(reg, y, rank, width)
    ensures x in Walk(reg, q, bound, rank, width)
    decreases TotalVisits(q, rank, width)
  {
    var listing := ParentTypes(reg, q[0], rank, width);
    WorkShrinks(q, listing, rank, width);
    var rest := q[1..] + listing;
    if y == q[0] {
      WalkExtends(reg, rest, bound, rank, width);
      assert x in rest;
    } else {
      assert y in q[1..];
      WalkClosed(reg, rest, bound, rank, width, y, x);
    }
  }

  /** Every strict ancestor is listed. */
  lemma {:induction false} AncestorsAreListed(reg: Registry, t: TypeName, rank: TypeName -> nat, width: nat,
                                              path: seq<TypeName>)
    requires Acyclic(reg, rank, width)
    requires |path| >= 2 && path[0] == t && IsPath(reg, path)
    ensures path[|path| - 1] in ParentTypes(reg, t, rank, width)
    decreases |path|
  {
    var direct := Extends(reg, t);
    var p := path[1];
    assert p in direct;
    assert rank(t) > 0;
    if |path| == 2 {
      WalkExtends(reg, direct, rank(t), rank, width);
    } else {
      AncestorsAreListed(reg, p, rank, width, path[1..]);
      WalkClosed(reg, direct, rank(t), rank, width, p, path[|path| - 1]);
    }
  }

  /** On any acyclic graph, with any number of parents, the listing holds exactly the strict ancestors. */
  lemma ListingIsStrictAncestors(reg: Registry, t: TypeName, rank: TypeName -> nat, width: nat, a: TypeName)
    requires Acyclic(reg, rank, width)
    ensures a in ParentTypes(reg, t, rank, width) <==> StrictAncestor(reg, a, t)
  {
    if a in ParentTypes(reg, t, rank, width) {
      ListedAreAncestors(reg, t, rank, width, a);
    }
    if StrictAncestor(reg, a, t) {
      var path :| PathTo(reg, path, t, a);
      AncestorsAreListed(reg, t, rank, width, path);
    }
  }

  // ---------------------------------------------------------------------
  // Single inheritance
  // ---------------------------------------------------------------------

  ghost predicate SingleInheritance(reg: Registry) {
    forall t :: |Extends(reg, t)| <= 1
  }

  /** Parent, grandparent, and so on. */
  ghost function Chain(reg: Registry, t: TypeName, rank: TypeName -> nat, width: nat): seq<TypeName>
    requires Acyclic(reg, rank, width)
    decreases rank(t)
  {
    var direct := Extends(reg, t);
    if direct == [] then [] else [direct[0]] + Chain(reg, direct[0], rank, width)
  }

  /** On a chain the listing starts with the chain, nearest first, and then only repeats it. */
  lemma {:induction false} ListingStartsWithChain(reg: Registry, t: TypeName, rank: TypeName -> nat, width: nat)
    requires Acyclic(reg, rank, width) && SingleInheritance(reg)
    ensures Chain(reg, t, rank, width) <= ParentTypes(reg, t, rank, width)
    ensures forall x :: x in ParentTypes(reg, t, rank, width) ==> x in Chain(reg, t, rank, width)
    decreases rank(t)
  {
    var direct := Extends(reg, t);
    if direct != [] {
      var p := direct[0];
      assert direct == [p] && rank(t) > 0;
      ListingStartsWithChain(reg, p, rank, width);
      var listing := ParentTypes(reg, p, rank, width);
      WorkShrinks(direct, listing, rank, width);
      assert direct[1..] + listing == listing;
      WalkExtends(reg, listing, rank(t), rank, width);
      assert ParentTypes(reg, t, rank, width) == [p] + Walk(reg, listing, rank(t), rank, width);
      forall x | x in Walk(reg, listing, rank(t), rank, width)
        ensures x in Chain(reg, p, rank, width)
      {
        ListingIsStrictAncestors(reg, t, rank, width, x);
        forall y, z | z in ParentTypes(reg, y, rank, width) ensures StrictAncestor(reg, z, y) {
          ListingIsStrictAncestors(reg, y, rank, width, z);
        }
        WalkMembers(reg, listing, rank(t), rank, width, x);
        var y :| y in listing && (x == y || StrictAncestor(reg, x, y));
        ListingIsStrictAncestors(reg, p, rank, width, y);
        if x != y { AncestorTransitive(reg, x, y, p); }
        ListingIsStrictAncestors(reg, p, rank, width, x);
      }
    }
  }

  /** In the loop the array is `done + rest`; `done` has been visited. */
  ghost predicate Walking(reg: Registry, arr: seq<TypeName>, result: seq<TypeName>, done: seq<TypeName>,
                          rest: seq<TypeName>,
                          bound: nat, rank: TypeName -> nat, width: nat)
    requires Acyclic(reg, rank, width)
  {
    && arr == done + rest
    && Below(rest, rank, bound)
    && result == done + Walk(reg, rest, bound, rank, width)
  }

  lemma WalkingStep(reg: Registry, arr: seq<TypeName>, result: seq<TypeName>, done: seq<TypeName>, rest: seq<TypeName>,
                    bound: nat, rank: TypeName -> nat, width: nat)
    requires Acyclic(reg, rank, width) && Walking(reg, arr, result, done, rest, bound, rank, width) && rest != []
    ensures
      var listing := ParentTypes(reg, rest[0], rank, width);
      && Walking(reg, arr + listing, result, done + [rest[0]], rest[1..] + listing, bound, rank, width)
      && TotalVisits(rest[1..] + listing, rank, width) < TotalVisits(rest, rank, width)
  {
    var listing := ParentTypes(reg, rest[0], rank, width);
    WorkShrinks(rest, listing, rank, width);
    MoveOne(done, rest, listing);
    Reassociate(done, rest[0], Walk(reg, rest[1..] + listing, bound, rank, width));
  }

  lemma MoveOne(done: seq<TypeName>, rest: seq<TypeName>, more: seq<TypeName>)
    requires rest != []
    ensures (done + rest) + more == (done + [rest[0]]) + (rest[1..] + more)
  {
  }

  lemma Reassociate(a: seq<TypeName>, x: TypeName, b: seq<TypeName>)
    ensures a + ([x] + b) == (a + [x]) + b
  {
  }

  // ---------------------------------------------------------------------
  // The loop itself
  // ---------------------------------------------------------------------

  /** `getParentTypes`: a loop over an array that it keeps pushing onto. */
  method GetParentTypes(reg: Registry, typeName: TypeName, ghost rank: TypeName -> nat, ghost width: nat)
    returns (r: seq<TypeName>)
    requires Acyclic(reg, rank, width)
    ensures r == ParentTypes(reg, typeName, rank, width)
    decreases rank(typeName)
  {
    var extendsArr := Extends(reg, typeName);
    if |extendsArr| == 0 { return []; }
    ghost var bound := rank(typeName);
    assert rank(extendsArr[0]) < bound;
    r := extendsArr;
    var i := 0;
    ghost var result := ParentTypes(reg, typeName, rank, width);
    ghost var done, rest := [], r;
    while i < |r|
      invariant |done| == i && |done| + |rest| == |r|
      invariant Walking(reg, r, result, done, rest, bound, rank, width)
      decreases TotalVisits(rest, rank, width)
    {
      assert r[i] == rest[0];
      var listing := GetParentTypes(reg, r[i], rank, width);
      WalkingStep(reg, r, result, done, rest, bound, rank, width);
      r := r + listing;
      i := i + 1;
      done, rest := done + [rest[0]], rest[1..] + listing;
    }
  }
}
