/**
 * Repair of credential references whose id is missing or stale
 * (`replaceInvalidCredentials`, packages/cli/src/workflow-helpers.ts).
 */
module CredentialRepair {
  import opened Common

  /**
   * A node's reference to a credential: absent, managed by the AI gateway, the old bare
   * name, or a record with an id that may be null.
   */
  datatype Reference = Absent | Managed | Bare(name: string) | Details(id: Option<string>, name: string)

  /** A credential row. Ids are unique; a row belongs to projects. */
  datatype Stored = Stored(id: string, name: string, kind: string, projects: set<string>)

  type Database = seq<Stored>

  predicate UniqueIds(db: Database) {
    forall i, j :: 0 <= i < |db| && 0 <= j < |db| && db[i].id == db[j].id ==> i == j
  }

  function FindById(db: Database, id: string, kind: string): (r: Option<Stored>)
    ensures r.Some? ==> r.value in db && r.value.id == id && r.value.kind == kind
    ensures r.None? ==> forall s :: s in db ==> !(s.id == id && s.kind == kind)
  {
    if db == [] then None
    else if db[0].id == id && db[0].kind == kind then Some(db[0])
    else FindById(db[1..], id, kind)
  }

  function FindByName(db: Database, name: string, kind: string, project: string): (r: seq<Stored>)
    ensures forall s :: s in r <==> s in db && s.name == name && s.kind == kind && project in s.projects
  {
    if db == [] then []
    else
      var rest := FindByName(db[1..], name, kind, project);
      if db[0].name == name && db[0].kind == kind && project in db[0].projects then [db[0]] + rest else rest
  }

  /** The credential of that name and type, when there is exactly one in the project. */
  function OnlyByName(db: Database, name: string, kind: string, project: string): (r: Option<Stored>)
    ensures r.Some? ==> r.value in db && r.value.name == name && r.value.kind == kind && project in r.value.projects
  {
    var found := FindByName(db, name, kind, project);
    if |found| == 1 then Some(found[0]) else None
  }

  function ToReference(s: Stored): Reference {
    Details(Some(s.id), s.name)
  }

  /** One credential entry of one node; entries of disabled nodes are not active. */
  datatype Item = Item(active: bool, kind: string, ref: Reference)

  predicate Eligible(item: Item) {
    item.active && (item.ref.Bare? || item.ref.Details?)
  }

  /** The old style: a bare name, or a record with a null id. */
  predicate ByName(item: Item) {
    Eligible(item) && (item.ref.Bare? || item.ref.id.None?)
  }

  predicate ById(item: Item) {
    Eligible(item) && item.ref.Details? && item.ref.id.Some?
  }

  // ---------------------------------------------------------------------
  // The pass with its two caches
  // ---------------------------------------------------------------------

  /** Both caches are keyed by type and then by name or id. */
  datatype Caches = Caches(byName: map<(string, string), Reference>, byId: map<(string, string), Reference>)

  const NoCaches := Caches(map[], map[])

  function RepairByName(db: Database, project: string, item: Item, c: Caches): (Reference, Caches)
    requires ByName(item)
  {
    var name := item.ref.name;
    var key := (item.kind, name);
    if key in c.byName then (c.byName[key], c)
    else
      match OnlyByName(db, name, item.kind, project)
      case Some(s) => (ToReference(s), c.(byName := c.byName[key := ToReference(s)]))
      case None => (item.ref, c.(byName := c.byName[key := Details(None, name)]))
  }

  function RepairById(db: Database, project: string, item: Item, c: Caches): (Reference, Caches)
    requires ById(item)
  {
    var id := item.ref.id.value;
    var key := (item.kind, id);
    if key in c.byId then (c.byId[key], c)
    else
      match FindById(db, id, item.kind)
      case Some(s) => (ToReference(s), c.(byId := c.byId[key := ToReference(s)]))
      case None =>
        match OnlyByName(db, item.ref.name, item.kind, project)
        case Some(s) => (ToReference(s), c.(byId := c.byId[(item.kind, s.id) := ToReference(s)]))
        case None => (item.ref, c.(byId := c.byId[key := item.ref]))
  }

  function RepairItem(db: Database, project: string, item: Item, c: Caches): (Reference, Caches) {
    if ByName(item) then RepairByName(db, project, item, c)
    else if ById(item) then RepairById(db, project, item, c)
    else (item.ref, c)
  }

  /** The whole pass over the entries in order. */
  function Repair(db: Database, project: string, items: seq<Item>): (r: (seq<Item>, Caches))
    ensures |r.0| == |items|
  {
    if |items| == 0 then ([], NoCaches)
    else
      var last := |items| - 1;
      var (done, c) := Repair(db, project, items[..last]);
      var (ref, c') := RepairItem(db, project, items[last], c);
      (done + [items[last].(ref := ref)], c')
  }

  // ---------------------------------------------------------------------
  // The same result said without caches
  // ---------------------------------------------------------------------

  predicate SameName(item: Item, kind: string, name: string) {
    ByName(item) && item.kind == kind && item.ref.name == name
  }

  predicate NameSeen(items: seq<Item>, kind: string, name: string) {
    exists j :: 0 <= j < |items| && SameName(items[j], kind, name)
  }

  /** An id that is not in the database, under a name that does not single out a credential. */
  predicate Stuck(db: Database, project: string, item: Item, kind: string, id: string) {
    && ById(item) && item.kind == kind && item.ref.id == Some(id)
    && FindById(db, id, kind).None?
    && OnlyByName(db, item.ref.name, kind, project).None?
  }

  /** The first stuck entry for that id. */
  function FirstStuck(db: Database, project: string, items: seq<Item>, kind: string, id: string): (r: Option<Reference>)
    ensures r.Some? <==> exists j :: 0 <= j < |items| && Stuck(db, project, items[j], kind, id)
    ensures r.Some? ==> exists j :: 0 <= j < |items| && Stuck(db, project, items[j], kind, id) && items[j].ref == r.value
  {
    if |items| == 0 then None
    else
      var last := |items| - 1;
      var earlier := FirstStuck(db, project, items[..last], kind, id);
      if earlier.Some? then
        var j :| 0 <= j < last && Stuck(db, project, items[..last][j], kind, id) && items[..last][j].ref == earlier.value;
        assert items[..last][j] == items[j];
        earlier
      else if Stuck(db, project, items[last], kind, id) then Some(items[last].ref)
      else
        assert forall j :: 0 <= j < last ==> items[..last][j] == items[j];
        None
  }

  /** What becomes of `item` when the entries `before` come first: the database and earlier entries decide. */
  function Outcome(db: Database, project: string, before: seq<Item>, item: Item): Reference {
    if ByName(item) then
      match OnlyByName(db, item.ref.name, item.kind, project)
      case Some(s) => ToReference(s)
      case None => if NameSeen(before, item.kind, item.ref.name) then Details(None, item.ref.name) else item.ref
    else if ById(item) then
      match FindById(db, item.ref.id.value, item.kind)
      case Some(s) => ToReference(s)
      case None =>
        match FirstStuck(db, project, before, item.kind, item.ref.id.value)
        case Some(r) => r
        case None =>
          match OnlyByName(db, item.ref.name, item.kind, project)
          case Some(s) => ToReference(s)
          case None => item.ref
    else item.ref
  }

  /** What the caches hold once the entries `before` are done. */
  ghost predicate CachesAfter(db: Database, project: string, before: seq<Item>, c: Caches) {
    && (forall kind, name :: (kind, name) in c.byName <==> NameSeen(before, kind, name))
    && (forall kind, name :: (kind, name) in c.byName ==> c.byName[(kind, name)] == CachedName(db, project, kind, name))
    && (forall kind, id :: (kind, id) in c.byId ==> CachedId(db, project, before, kind, id, c.byId[(kind, id)]))
    && (forall kind, id :: FirstStuck(db, project, before, kind, id).Some? ==> (kind, id) in c.byId)
  }

  ghost function CachedName(db: Database, project: string, kind: string, name: string): Reference {
    match OnlyByName(db, name, kind, project)
    case Some(s) => ToReference(s)
    case None => Details(None, name)
  }

  ghost predicate CachedId(db: Database, project: string, before: seq<Item>, kind: string, id: string, r: Reference) {
    match FindById(db, id, kind)
    case Some(s) => r == ToReference(s)
    case None => FirstStuck(db, project, before, kind, id) == Some(r)
  }

  lemma FirstStuckStep(db: Database, project: string, before: seq<Item>, item: Item, kind: string, id: string)
    ensures FirstStuck(db, project, before + [item], kind, id)
         == if FirstStuck(db, project, before, kind, id).Some? then FirstStuck(db, project, before, kind, id)
            else if Stuck(db, project, item, kind, id) then Some(item.ref) else None
  {
    assert (before + [item])[..|before|] == before;
  }

  lemma NameSeenStep(before: seq<Item>, item: Item, kind: string, name: string)
    ensures NameSeen(before + [item], kind, name) <==> NameSeen(before, kind, name) || SameName(item, kind, name)
  {
    var all := before + [item];
    if NameSeen(before, kind, name) {
      var j :| 0 <= j < |before| && SameName(before[j], kind, name);
      assert SameName(all[j], kind, name);
    }
    if SameName(item, kind, name) {
      assert SameName(all[|before|], kind, name);
    }
  }

  lemma FindUnique(db: Database, s: Stored)
    requires UniqueIds(db) && s in db
    ensures FindById(db, s.id, s.kind) == Some(s)
  {
    var i :| 0 <= i < |db| && db[i] == s;
    var r := FindById(db, s.id, s.kind);
    assert r.Some?;
    var j :| 0 <= j < |db| && db[j] == r.value;
  }

  lemma RepairByNameStep(db: Database, project: string, before: seq<Item>, item: Item, c: Caches)
    requires ByName(item) && CachesAfter(db, project, before, c)
    ensures
      var (r, c') := RepairByName(db, project, item, c);
      r == Outcome(db, project, before, item) && CachesAfter(db, project, before + [item], c')
  {
    var (r, c') := RepairByName(db, project, item, c);
    forall kind, name
      ensures NameSeen(before + [item], kind, name) <==> NameSeen(before, kind, name) || SameName(item, kind, name)
    {
      NameSeenStep(before, item, kind, name);
    }
    forall kind, id ensures FirstStuck(db, project, before + [item], kind, id) == FirstStuck(db, project, before, kind, id) {
      FirstStuckStep(db, project, before, item, kind, id);
    }
  }

  lemma RepairByIdStep(db: Database, project: string, before: seq<Item>, item: Item, c: Caches)
    requires ById(item) && CachesAfter(db, project, before, c) && UniqueIds(db)
    ensures
      var (r, c') := RepairById(db, project, item, c);
      r == Outcome(db, project, before, item) && CachesAfter(db, project, before + [item], c')
  {
    var (r, c') := RepairById(db, project, item, c);
    var id := item.ref.id.value;
    forall kind, name ensures NameSeen(before + [item], kind, name) <==> NameSeen(before, kind, name) {
      NameSeenStep(before, item, kind, name);
    }
    FirstStuckStep(db, project, before, item, item.kind, id);
    var byName := OnlyByName(db, item.ref.name, item.kind, project);
    if byName.Some? { FindUnique(db, byName.value); }
    forall kind, other | (kind, other) in c'.byId
      ensures CachedId(db, project, before + [item], kind, other, c'.byId[(kind, other)])
    {
      FirstStuckStep(db, project, before, item, kind, other);
    }
    forall kind, other | FirstStuck(db, project, before + [item], kind, other).Some?
      ensures (kind, other) in c'.byId
    {
      FirstStuckStep(db, project, before, item, kind, other);
    }
  }

  lemma IdleStep(db: Database, project: string, before: seq<Item>, item: Item, c: Caches)
    requires !ByName(item) && !ById(item) && CachesAfter(db, project, before, c)
    ensures CachesAfter(db, project, before + [item], c)
  {
    forall kind, name ensures NameSeen(before + [item], kind, name) <==> NameSeen(before, kind, name) {
      NameSeenStep(before, item, kind, name);
    }
    forall kind, id ensures FirstStuck(db, project, before + [item], kind, id) == FirstStuck(db, project, before, kind, id) {
      FirstStuckStep(db, project, before, item, kind, id);
    }
  }

  /** The cached pass gives every entry the outcome that the database and the earlier entries determine. */
  lemma {:induction false} RepairIsOutcome(db: Database, project: string, items: seq<Item>)
    requires UniqueIds(db)
    ensures CachesAfter(db, project, items, Repair(db, project, items).1)
    ensures forall k :: 0 <= k < |items| ==>
      Repair(db, project, items).0[k] == items[k].(ref := Outcome(db, project, items[..k], items[k]))
    decreases |items|
  {
    if items != [] {
      var last := |items| - 1;
      var before := items[..last];
      RepairIsOutcome(db, project, before);
      var c := Repair(db, project, before).1;
      if ByName(items[last]) { RepairByNameStep(db, project, before, items[last], c); }
      else if ById(items[last]) { RepairByIdStep(db, project, before, items[last], c); }
      else { IdleStep(db, project, before, items[last], c); }
      assert before + [items[last]] == items;
      forall k | 0 <= k < last ensures before[..k] == items[..k] {}
    }
  }

  // ---------------------------------------------------------------------
  // What the pass guarantees
  // ---------------------------------------------------------------------

  function IdOf(r: Reference): Option<string> {
    if r.Details? then r.id else None
  }

  /**
   * In any order of entries, the id of each repaired entry is the one it came with (none for a bare name)
   * or the id of a stored credential of the same type, and an id that exists is never replaced.
   */
  lemma RepairedIdsAreSound(db: Database, project: string, items: seq<Item>, k: nat)
    requires UniqueIds(db) && k < |items|
    ensures
      var old', new' := items[k], Repair(db, project, items).0[k];
      && new'.kind == old'.kind && new'.active == old'.active
      && (!Eligible(old') ==> new' == old')
      && (IdOf(new'.ref) == IdOf(old'.ref)
          || exists s :: s in db && s.kind == old'.kind && IdOf(new'.ref) == Some(s.id) && project in s.projects)
      && (ById(old') && FindById(db, old'.ref.id.value, old'.kind).Some? ==> IdOf(new'.ref) == old'.ref.id)
  {
    RepairIsOutcome(db, project, items);
  }

  /** The row is one of this name and type in the project. */
  predicate Matches(s: Stored, name: string, kind: string, project: string) {
    s.name == name && s.kind == kind && project in s.projects
  }

  /** One row matches and no other does. */
  predicate SinglesOut(db: Database, name: string, kind: string, project: string, i: nat) {
    && i < |db| && Matches(db[i], name, kind, project)
    && forall j :: 0 <= j < |db| && j != i ==> !Matches(db[j], name, kind, project)
  }

  ghost predicate IsUnique(db: Database, name: string, kind: string, project: string) {
    exists i: nat :: SinglesOut(db, name, kind, project, i)
  }

  lemma {:induction false} FoundNone(db: Database, name: string, kind: string, project: string)
    ensures FindByName(db, name, kind, project) == [] <==> forall j :: 0 <= j < |db| ==> !Matches(db[j], name, kind, project)
    decreases |db|
  {
    if db != [] {
      FoundNone(db[1..], name, kind, project);
      forall j | 0 <= j < |db| ensures db[j] == if j == 0 then db[0] else db[1..][j - 1] {}
    }
  }

  lemma {:induction false} FoundOne(db: Database, name: string, kind: string, project: string, i: nat)
    ensures SinglesOut(db, name, kind, project, i) ==> FindByName(db, name, kind, project) == [db[i]]
    decreases |db|
  {
    if SinglesOut(db, name, kind, project, i) {
      forall j | 0 <= j < |db| - 1 ensures db[1..][j] == db[j + 1] {}
      if i == 0 {
        FoundNone(db[1..], name, kind, project);
      } else {
        assert SinglesOut(db[1..], name, kind, project, i - 1);
        FoundOne(db[1..], name, kind, project, i - 1);
      }
    }
  }

  lemma {:induction false} FoundAlone(db: Database, name: string, kind: string, project: string) returns (i: nat)
    requires |FindByName(db, name, kind, project)| == 1
    ensures SinglesOut(db, name, kind, project, i)
    decreases |db|
  {
    forall j | 0 <= j < |db| - 1 ensures db[1..][j] == db[j + 1] {}
    if Matches(db[0], name, kind, project) {
      i := 0;
      FoundNone(db[1..], name, kind, project);
      forall j | 0 < j < |db| ensures !Matches(db[j], name, kind, project) { assert db[j] == db[1..][j - 1]; }
    } else {
      var k := FoundAlone(db[1..], name, kind, project);
      i := k + 1;
      forall j | 0 <= j < |db| && j != i ensures !Matches(db[j], name, kind, project) {
        if j > 0 { assert db[j] == db[1..][j - 1]; }
      }
    }
  }

  /** The lookup by name gives a row exactly when it is the only match. */
  lemma OnlyByNameIsUnique(db: Database, name: string, kind: string, project: string)
    ensures OnlyByName(db, name, kind, project).Some? <==> IsUnique(db, name, kind, project)
    ensures forall i: nat :: SinglesOut(db, name, kind, project, i) ==> OnlyByName(db, name, kind, project) == Some(db[i])
  {
    if OnlyByName(db, name, kind, project).Some? { var i := FoundAlone(db, name, kind, project); }
    forall i: nat | SinglesOut(db, name, kind, project, i) ensures OnlyByName(db, name, kind, project) == Some(db[i]) {
      FoundOne(db, name, kind, project, i);
    }
  }

  /** An earlier entry with this id, which is not stored, under a name that is not unique. */
  ghost predicate StuckBefore(db: Database, project: string, items: seq<Item>, k: nat, kind: string, id: string)
    requires k <= |items|
  {
    exists j :: 0 <= j < k && ById(items[j]) && items[j].kind == kind && items[j].ref.id == Some(id)
                && !IsUnique(db, items[j].ref.name, kind, project)
  }

  lemma StuckBeforeIsFirstStuck(db: Database, project: string, items: seq<Item>, k: nat, kind: string, id: string)
    requires k <= |items| && FindById(db, id, kind).None?
    ensures StuckBefore(db, project, items, k, kind, id) <==> FirstStuck(db, project, items[..k], kind, id).Some?
  {
    forall j | 0 <= j < k ensures items[..k][j] == items[j] {}
    forall name ensures OnlyByName(db, name, kind, project).Some? <==> IsUnique(db, name, kind, project) {
      OnlyByNameIsUnique(db, name, kind, project);
    }
    if StuckBefore(db, project, items, k, kind, id) {
      var j :| 0 <= j < k && ById(items[j]) && items[j].kind == kind && items[j].ref.id == Some(id)
               && !IsUnique(db, items[j].ref.name, kind, project);
      assert Stuck(db, project, items[..k][j], kind, id);
    }
    if FirstStuck(db, project, items[..k], kind, id).Some? {
      var j :| 0 <= j < |items[..k]| && Stuck(db, project, items[..k][j], kind, id);
      assert ById(items[j]) && !IsUnique(db, items[j].ref.name, kind, project);
    }
  }

  /**
   * Exactly when a stale id is replaced: exactly one credential of the type in the project has the entry's name, and no
   * earlier entry with the same stale id has a name that is not unique. It then becomes that credential's id and name.
   */
  lemma StaleIdIsReplacedExactlyWhen(db: Database, project: string, items: seq<Item>, k: nat)
    requires UniqueIds(db) && k < |items| && ById(items[k])
    requires forall s :: s in db ==> !(s.id == items[k].ref.id.value && s.kind == items[k].kind)
    ensures
      var item, ref := items[k], Repair(db, project, items).0[k].ref;
      var stuck := StuckBefore(db, project, items, k, item.kind, item.ref.id.value);
      && (IdOf(ref) != item.ref.id <==> IsUnique(db, item.ref.name, item.kind, project) && !stuck)
      && (forall i: nat :: SinglesOut(db, item.ref.name, item.kind, project, i) && !stuck ==>
            ref == Details(Some(db[i].id), db[i].name))
  {
    var item := items[k];
    RepairIsOutcome(db, project, items);
    OnlyByNameIsUnique(db, item.ref.name, item.kind, project);
    StuckBeforeIsFirstStuck(db, project, items, k, item.kind, item.ref.id.value);
  }

  /**
   * An old-style entry gets an id exactly when one credential of the type in the project has its name, and no other has,
   * whatever comes before it; it then gets that credential's id and name.
   */
  lemma NameIsResolvedExactlyWhen(db: Database, project: string, items: seq<Item>, k: nat)
    requires UniqueIds(db) && k < |items| && ByName(items[k])
    ensures
      var item, ref := items[k], Repair(db, project, items).0[k].ref;
      && (IdOf(ref).Some? <==> IsUnique(db, item.ref.name, item.kind, project))
      && (forall i: nat :: SinglesOut(db, item.ref.name, item.kind, project, i) ==> ref == Details(Some(db[i].id), db[i].name))
  {
    RepairIsOutcome(db, project, items);
    OnlyByNameIsUnique(db, items[k].ref.name, items[k].kind, project);
  }

  /**
   * A repaired entry that carries the id of a stored credential of its type carries that credential's name; one left without
   * an id keeps its own name; one with an id that is not stored carries a reference that it, or an entry of its type before
   * it, came in with.
   */
  lemma RepairedNamesAreSound(db: Database, project: string, items: seq<Item>, k: nat)
    requires UniqueIds(db) && k < |items| && Eligible(items[k])
    ensures
      var item, ref := items[k], Repair(db, project, items).0[k].ref;
      && (ref.Bare? || ref.Details?)
      && (forall s :: s in db && s.kind == item.kind && IdOf(ref) == Some(s.id) ==> ref == Details(Some(s.id), s.name))
      && (IdOf(ref).None? ==> ref.name == item.ref.name)
      && (IdOf(ref).Some? && (forall s :: s in db && s.kind == item.kind ==> s.id != IdOf(ref).value) ==>
            exists j :: 0 <= j <= k && items[j].kind == item.kind && items[j].ref == ref)
  {
    var item := items[k];
    RepairIsOutcome(db, project, items);
    var ref := Repair(db, project, items).0[k].ref;
    forall s | s in db && s.kind == item.kind && IdOf(ref) == Some(s.id) ensures ref == Details(Some(s.id), s.name) {
      FindUnique(db, s);
    }
    if ById(item) && FindById(db, item.ref.id.value, item.kind).None? {
      var first := FirstStuck(db, project, items[..k], item.kind, item.ref.id.value);
      if first.Some? {
        var j :| 0 <= j < k && Stuck(db, project, items[..k][j], item.kind, item.ref.id.value)
                 && items[..k][j].ref == first.value;
        assert items[j].kind == item.kind && items[j].ref == ref;
      }
    }
  }

  // ---------------------------------------------------------------------
  // A second pass changes nothing
  // ---------------------------------------------------------------------

  lemma {:induction false} FirstStuckKeeps(db: Database, project: string, items: seq<Item>, kind: string, id: string,
                                           j: nat, k: nat)
    requires j <= k <= |items| && FirstStuck(db, project, items[..j], kind, id).Some?
    ensures FirstStuck(db, project, items[..k], kind, id) == FirstStuck(db, project, items[..j], kind, id)
    decreases k
  {
    if j < k {
      FirstStuckKeeps(db, project, items, kind, id, j, k - 1);
      assert items[..k] == items[..k - 1] + [items[k - 1]];
      FirstStuckStep(db, project, items[..k - 1], items[k - 1], kind, id);
    }
  }

  /** A stuck entry of the output came in with the same id. */
  lemma StuckCameIn(db: Database, project: string, before: seq<Item>, item: Item, kind: string, id: string)
    requires UniqueIds(db) && Stuck(db, project, item.(ref := Outcome(db, project, before, item)), kind, id)
    ensures ById(item) && item.kind == kind && item.ref.id == Some(id)
  {
    var only := if Eligible(item) then OnlyByName(db, item.ref.name, item.kind, project) else None;
    if only.Some? { FindUnique(db, only.value); }
  }

  lemma StuckIsFirst(db: Database, project: string, before: seq<Item>, item: Item, kind: string, id: string)
    requires ById(item) && item.kind == kind && item.ref.id == Some(id)
    requires Stuck(db, project, item.(ref := Outcome(db, project, before, item)), kind, id)
    ensures FirstStuck(db, project, before + [item], kind, id) == Some(Outcome(db, project, before, item))
  {
    FirstStuckStep(db, project, before, item, kind, id);
  }

  lemma RepairAt(db: Database, project: string, items: seq<Item>, k: nat)
    requires UniqueIds(db) && k < |items|
    ensures Repair(db, project, items).0[k] == items[k].(ref := Outcome(db, project, items[..k], items[k]))
  {
    RepairIsOutcome(db, project, items);
  }

  /** A stuck entry of the output is the first stuck entry of the input. */
  lemma StuckAfterRepair(db: Database, project: string, items: seq<Item>, kind: string, id: string, j: nat, k: nat)
    requires UniqueIds(db) && j < k <= |items|
    requires Stuck(db, project, Repair(db, project, items).0[j], kind, id)
    ensures FirstStuck(db, project, items[..k], kind, id) == Some(Repair(db, project, items).0[j].ref)
  {
    RepairAt(db, project, items, j);
    StuckCameIn(db, project, items[..j], items[j], kind, id);
    StuckIsFirst(db, project, items[..j], items[j], kind, id);
    assert items[..j + 1] == items[..j] + [items[j]];
    FirstStuckKeeps(db, project, items, kind, id, j + 1, k);
  }

  lemma FirstStuckAfterRepair(db: Database, project: string, items: seq<Item>, kind: string, id: string, k: nat)
    requires UniqueIds(db) && k <= |items|
    ensures
      var again := FirstStuck(db, project, Repair(db, project, items).0[..k], kind, id);
      again.Some? ==> again == FirstStuck(db, project, items[..k], kind, id)
  {
    var out := Repair(db, project, items).0;
    var again := FirstStuck(db, project, out[..k], kind, id);
    if again.Some? {
      var j :| 0 <= j < k && Stuck(db, project, out[..k][j], kind, id) && out[..k][j].ref == again.value;
      assert out[..k][j] == out[j];
      StuckAfterRepair(db, project, items, kind, id, j, k);
    }
  }

  lemma NameSeenAfterRepair(db: Database, project: string, items: seq<Item>, kind: string, name: string, k: nat)
    requires UniqueIds(db) && k <= |items| && NameSeen(Repair(db, project, items).0[..k], kind, name)
    ensures NameSeen(items[..k], kind, name)
  {
    RepairIsOutcome(db, project, items);
    var out := Repair(db, project, items).0;
    var j :| 0 <= j < k && SameName(out[..k][j], kind, name);
    assert out[..k][j] == out[j] && items[..k][j] == items[j];
    var item := items[j];
    if ById(item) { assert false; }
    assert SameName(items[..k][j], kind, name);
  }

  lemma OutcomeIsStable(db: Database, project: string, items: seq<Item>, k: nat)
    requires UniqueIds(db) && k < |items|
    ensures
      var out := Repair(db, project, items).0;
      Outcome(db, project, out[..k], out[k]) == out[k].ref
  {
    RepairIsOutcome(db, project, items);
    var out := Repair(db, project, items).0;
    var item, r := items[k], out[k].ref;
    var only := if Eligible(item) then OnlyByName(db, item.ref.name, item.kind, project) else None;
    if only.Some? { FindUnique(db, only.value); }
    if ByName(item) {
      if only.None? && NameSeen(out[..k], item.kind, item.ref.name) {
        NameSeenAfterRepair(db, project, items, item.kind, item.ref.name, k);
      }
    } else if ById(item) {
      FirstStuckAfterRepair(db, project, items, item.kind, item.ref.id.value, k);
    }
  }

  /** For an unchanged database a second pass over its own output changes no entry. */
  lemma RepairTwiceIsRepairOnce(db: Database, project: string, items: seq<Item>)
    requires UniqueIds(db)
    ensures
      var out := Repair(db, project, items).0;
      Repair(db, project, out).0 == out
  {
    var out := Repair(db, project, items).0;
    RepairIsOutcome(db, project, out);
    forall k | 0 <= k < |out| ensures Repair(db, project, out).0[k] == out[k] {
      OutcomeIsStable(db, project, items, k);
    }
  }

  // ---------------------------------------------------------------------
  // The workflow and the loops over its nodes
  // ---------------------------------------------------------------------

  /** `credentials` lists the entries of the node's credential object, one per type. */
  datatype Node = Node(disabled: bool, credentials: Option<seq<(string, Reference)>>)

  function ItemsOf(node: Node): seq<Item> {
    if node.credentials.None? then []
    else
      var entries := node.credentials.value;
      seq(|entries|, i requires 0 <= i < |entries| => Item(!node.disabled, entries[i].0, entries[i].1))
  }

  function Flatten(nodes: seq<Node>): seq<Item> {
    if |nodes| == 0 then [] else Flatten(nodes[..|nodes| - 1]) + ItemsOf(nodes[|nodes| - 1])
  }

  /** Only references may differ. */
  predicate SameNode(a: Node, b: Node) {
    && a.disabled == b.disabled
    && a.credentials.Some? == b.credentials.Some?
    && (a.credentials.Some? ==> |a.credentials.value| == |b.credentials.value|)
  }

  class Workflow {
    var nodes: Option<seq<Node>>

    constructor (nodes: Option<seq<Node>>)
      ensures this.nodes == nodes
    {
      this.nodes := nodes;
    }
  }

  lemma RepairStep(db: Database, project: string, items: seq<Item>, item: Item)
    ensures
      var (done, c) := Repair(db, project, items);
      var (ref, c') := RepairItem(db, project, item, c);
      Repair(db, project, items + [item]) == (done + [item.(ref := ref)], c')
  {
    assert (items + [item])[..|items|] == items;
  }

  /** Entries that are not eligible pass through. */
  lemma {:induction false} RepairIdle(db: Database, project: string, items: seq<Item>, more: seq<Item>)
    requires forall i :: 0 <= i < |more| ==> !Eligible(more[i])
    ensures Repair(db, project, items + more) == (Repair(db, project, items).0 + more, Repair(db, project, items).1)
    decreases |more|
  {
    if more == [] {
      assert items + more == items;
      assert Repair(db, project, items).0 + more == Repair(db, project, items).0;
    } else {
      var last := |more| - 1;
      RepairIdle(db, project, items, more[..last]);
      RepairStep(db, project, items + more[..last], more[last]);
      assert (items + more[..last]) + [more[last]] == items + more;
      var done := Repair(db, project, items).0;
      assert (done + more[..last]) + [more[last]] == done + more;
    }
  }

  lemma FlattenStep(nodes: seq<Node>, node: Node)
    ensures Flatten(nodes + [node]) == Flatten(nodes) + ItemsOf(node)
  {
    assert (nodes + [node])[..|nodes|] == nodes;
  }

  lemma RepairLast(db: Database, project: string, items: seq<Item>, item: Item, done: seq<Item>, c: Caches,
                   ref: Reference, c': Caches)
    requires Repair(db, project, items) == (done, c) && RepairItem(db, project, item, c) == (ref, c')
    ensures Repair(db, project, items + [item]) == (done + [item.(ref := ref)], c')
  {
    RepairStep(db, project, items, item);
  }

  lemma TakeOneMore(before: seq<Item>, items: seq<Item>, i: nat)
    requires i < |items|
    ensures (before + items[..i]) + [items[i]] == before + items[..i + 1]
  {
  }

  lemma RepairOneMore(db: Database, project: string, before: seq<Item>, items: seq<Item>, i: nat, done: seq<Item>,
                      c: Caches,
                      ref: Reference, c': Caches)
    requires i < |items| && Repair(db, project, before + items[..i]) == (Repair(db, project, before).0 + done, c)
    requires RepairItem(db, project, items[i], c) == (ref, c')
    ensures Repair(db, project, before + items[..i + 1])
         == (Repair(db, project, before).0 + (done + [items[i].(ref := ref)]), c')
  {
    TakeOneMore(before, items, i);
    RepairLast(db, project, before + items[..i], items[i], Repair(db, project, before).0 + done, c, ref, c');
    OneMore(Repair(db, project, before).0, done, items[i].(ref := ref));
  }

  lemma OneMore(a: seq<Item>, b: seq<Item>, x: Item)
    ensures (a + b) + [x] == a + (b + [x])
  {
  }

  /** The items of the first entries of an enabled node. */
  function EntryItems(entries: seq<(string, Reference)>): seq<Item> {
    seq(|entries|, i requires 0 <= i < |entries| => Item(true, entries[i].0, entries[i].1))
  }

  lemma EntryItemsStep(entries: seq<(string, Reference)>, i: nat, entry: (string, Reference))
    requires i < |entries|
    ensures EntryItems(entries[i := entry][..i + 1]) == EntryItems(entries[..i]) + [Item(true, entry.0, entry.1)]
  {
  }

  /** The first `i` entries have been repaired, after the items before the node. */
  predicate EntriesDone(db: Database, project: string, before: seq<Item>, items: seq<Item>,
                        entries: seq<(string, Reference)>, i: nat, c: Caches)
    requires i <= |items| && i <= |entries|
  {
    Repair(db, project, before + items[..i]) == (Repair(db, project, before).0 + EntryItems(entries[..i]), c)
  }

  lemma NoEntryDone(db: Database, project: string, before: seq<Item>, items: seq<Item>, entries: seq<(string, Reference)>)
    ensures EntriesDone(db, project, before, items, entries, 0, Repair(db, project, before).1)
  {
    assert before + items[..0] == before;
    assert Repair(db, project, before).0 + EntryItems(entries[..0]) == Repair(db, project, before).0;
  }

  lemma OneMoreEntry(db: Database, project: string, before: seq<Item>, items: seq<Item>,
                     entries: seq<(string, Reference)>, i: nat, c: Caches, ref: Reference, c': Caches)
    requires i < |items| && i < |entries| && EntriesDone(db, project, before, items, entries, i, c)
    requires items[i] == Item(true, entries[i].0, entries[i].1)
    requires RepairItem(db, project, items[i], c) == (ref, c')
    ensures EntriesDone(db, project, before, items, entries[i := (entries[i].0, ref)], i + 1, c')
  {
    RepairOneMore(db, project, before, items, i, EntryItems(entries[..i]), c, ref, c');
    EntryItemsStep(entries, i, (entries[i].0, ref));
  }

  lemma AllEntriesDone(db: Database, project: string, before: seq<Item>, node: Node, entries: seq<(string, Reference)>, c: Caches)
    requires !node.disabled && node.credentials.Some? && |entries| == |node.credentials.value|
    requires EntriesDone(db, project, before, ItemsOf(node), entries, |entries|, c)
    ensures
      Repair(db, project, before + ItemsOf(node))
        == (Repair(db, project, before).0 + ItemsOf(node.(credentials := Some(entries))), c)
  {
    assert ItemsOf(node)[..|entries|] == ItemsOf(node) && entries[..|entries|] == entries;
    assert ItemsOf(node.(credentials := Some(entries))) == EntryItems(entries);
  }

  /** The entries of one enabled node. */
  method RepairNode(db: Database, project: string, node: Node, c: Caches, ghost before: seq<Item>)
    returns (node': Node, c': Caches)
    requires c == Repair(db, project, before).1 && !node.disabled && node.credentials.Some?
    ensures SameNode(node, node')
    ensures Repair(db, project, before + ItemsOf(node)) == (Repair(db, project, before).0 + ItemsOf(node'), c')
  {
    var entries := node.credentials.value;
    ghost var items := ItemsOf(node);
    var entries' := entries;
    c' := c;
    NoEntryDone(db, project, before, items, entries');
    for i := 0 to |entries|
      invariant |entries'| == |entries| && forall k :: i <= k < |entries| ==> entries'[k] == entries[k]
      invariant EntriesDone(db, project, before, items, entries', i, c')
    {
      var (kind, ref) := entries'[i];
      var (ref', next) := RepairItem(db, project, Item(true, kind, ref), c');
      OneMoreEntry(db, project, before, items, entries', i, c', ref', next);
      entries', c' := entries'[i := (kind, ref')], next;
    }
    AllEntriesDone(db, project, before, node, entries', c');
    node' := node.(credentials := Some(entries'));
  }

  /** One node; disabled nodes and nodes without credentials are passed over. */
  method RepairNext(db: Database, project: string, node: Node, c: Caches, ghost before: seq<Item>)
    returns (node': Node, c': Caches)
    requires c == Repair(db, project, before).1
    ensures SameNode(node, node')
    ensures Repair(db, project, before + ItemsOf(node)) == (Repair(db, project, before).0 + ItemsOf(node'), c')
  {
    if node.credentials.Some? && !node.disabled {
      node', c' := RepairNode(db, project, node, c, before);
    } else {
      RepairIdle(db, project, before, ItemsOf(node));
      node', c' := node, c;
    }
  }

  predicate SameNodes(a: seq<Node>, b: seq<Node>) {
    |a| == |b| && forall i :: 0 <= i < |a| ==> SameNode(a[i], b[i])
  }

  predicate RepairedTo(db: Database, project: string, nodes: seq<Node>, nodes': seq<Node>, c: Caches) {
    SameNodes(nodes, nodes') && Repair(db, project, Flatten(nodes)) == (Flatten(nodes'), c)
  }

  lemma OneMoreNode(db: Database, project: string, done: seq<Node>, node: Node, done': seq<Node>, node': Node,
                    c: Caches, c': Caches)
    requires RepairedTo(db, project, done, done', c) && SameNode(node, node')
    requires Repair(db, project, Flatten(done) + ItemsOf(node)) == (Flatten(done') + ItemsOf(node'), c')
    ensures RepairedTo(db, project, done + [node], done' + [node'], c')
  {
    FlattenStep(done, node);
    FlattenStep(done', node');
  }

  lemma UpToNextNode(db: Database, project: string, nodes: seq<Node>, i: nat, done': seq<Node>, node': Node, c: Caches,
                     c': Caches)
    requires i < |nodes| && RepairedTo(db, project, nodes[..i], done', c) && SameNode(nodes[i], node')
    requires Repair(db, project, Flatten(nodes[..i]) + ItemsOf(nodes[i])) == (Flatten(done') + ItemsOf(node'), c')
    ensures RepairedTo(db, project, nodes[..i + 1], done' + [node'], c')
  {
    TakeNode(nodes, i);
    OneMoreNode(db, project, nodes[..i], nodes[i], done', node', c, c');
  }

  lemma TakeNode(nodes: seq<Node>, i: nat)
    requires i < |nodes|
    ensures nodes[..i] + [nodes[i]] == nodes[..i + 1]
  {
  }

  /** The nodes in order, their entries in order, both caches shared by all. */
  method RepairNodes(nodes: seq<Node>, db: Database, project: string) returns (nodes': seq<Node>)
    ensures SameNodes(nodes, nodes')
    ensures Flatten(nodes') == Repair(db, project, Flatten(nodes)).0
  {
    nodes' := [];
    var c := NoCaches;
    for i := 0 to |nodes|
      invariant RepairedTo(db, project, nodes[..i], nodes', c)
    {
      var node', c' := RepairNext(db, project, nodes[i], c, Flatten(nodes[..i]));
      UpToNextNode(db, project, nodes, i, nodes', node', c, c');
      nodes', c := nodes' + [node'], c';
    }
    assert nodes[..|nodes|] == nodes;
  }

  /** `replaceInvalidCredentials` */
  method ReplaceInvalidCredentials(workflow: Workflow, db: Database, project: string)
    modifies workflow
    ensures old(workflow.nodes).None? ==> workflow.nodes.None?
    ensures old(workflow.nodes).Some? ==>
      && workflow.nodes.Some? && SameNodes(old(workflow.nodes).value, workflow.nodes.value)
      && Flatten(workflow.nodes.value) == Repair(db, project, Flatten(old(workflow.nodes).value)).0
  {
    if workflow.nodes.Some? {
      var nodes := RepairNodes(workflow.nodes.value, db, project);
      workflow.nodes := Some(nodes);
    }
  }
}
