/**
 * Listing the paths of all strings in a JSON value that pass a filter
 * (`getAllKeyPaths`, packages/cli/src/utils.ts), and reading such a path back.
 */
module KeyPaths {
  import opened Common

  /** Object fields are listed in enumeration order. */
  datatype Json =
    | Null
    | Bool(b: bool)
    | Number(id: int)
    | Str(s: string)
    | Arr(items: seq<Json>)
    | Obj(fields: seq<(string, Json)>)

  type Filter = string -> bool

  /** One step of a path as it is printed. */
  datatype Step = Index(i: nat) | Key(key: string)

  function ChildCount(obj: Json): nat {
    match obj
    case Arr(items) => |items|
    case Obj(fields) => |fields|
    case _ => 0
  }

  function Child(obj: Json, i: nat): (c: Json)
    requires i < ChildCount(obj)
    ensures c < obj
  {
    match obj
    case Arr(items) => items[i]
    case Obj(fields) => fields[i].1
  }

  function StepTo(obj: Json, i: nat): Step
    requires i < ChildCount(obj)
  {
    match obj
    case Arr(items) => Index(i)
    case Obj(fields) => Key(fields[i].0)
  }

  // ---------------------------------------------------------------------
  // Printing
  // ---------------------------------------------------------------------

  function Digit(d: nat): char
    requires d < 10
  {
    '0' + d as char
  }

  function Digits(n: nat): string {
    if n < 10 then [Digit(n)] else Digits(n / 10) + [Digit(n % 10)]
  }

  /** The template that extends the current path; an empty current path adds no dot. */
  function Extend(path: string, step: Step): string {
    match step
    case Index(i) => path + "[" + Digits(i) + "]"
    case Key(key) => if path == "" then key else path + "." + key
  }

  // ---------------------------------------------------------------------
  // The traversal
  // ---------------------------------------------------------------------

  /** What a call on `obj` appends. */
  function Paths(obj: Json, path: string, keep: Filter): seq<string>
    decreases obj, ChildCount(obj) + 1
  {
    PathsUpTo(obj, ChildCount(obj), path, keep)
  }

  /** What has been appended after the first `n` children. */
  function PathsUpTo(obj: Json, n: nat, path: string, keep: Filter): seq<string>
    requires n <= ChildCount(obj)
    decreases obj, n
  {
    if n == 0 then []
    else
      PathsUpTo(obj, n - 1, path, keep)
      + ChildPaths(obj, n - 1, path, keep)
  }

  /** A kept string in an object is appended; anything else is traversed. */
  function ChildPaths(obj: Json, i: nat, path: string, keep: Filter): seq<string>
    requires i < ChildCount(obj)
    decreases obj, 0
  {
    var c := Child(obj, i);
    var newPath := Extend(path, StepTo(obj, i));
    if obj.Obj? && c.Str? && keep(c.s) then [newPath] else Paths(c, newPath, keep)
  }

  method GetAllKeyPaths(obj: Json, currentPath: string, paths: seq<string>, keep: Filter) returns (r: seq<string>)
    ensures r == paths + Paths(obj, currentPath, keep)
    decreases obj
  {
    r := paths;
    if obj.Arr? {
      for index := 0 to |obj.items|
        invariant r == paths + PathsUpTo(obj, index, currentPath, keep)
      {
        ghost var before := r;
        assert Child(obj, index) == obj.items[index];
        r := GetAllKeyPaths(obj.items[index], currentPath + "[" + Digits(index) + "]", r, keep);
        assert r == before + ChildPaths(obj, index, currentPath, keep);
      }
    } else if obj.Obj? {
      for i := 0 to |obj.fields|
        invariant r == paths + PathsUpTo(obj, i, currentPath, keep)
      {
        ghost var before := r;
        assert Child(obj, i) == obj.fields[i].1;
        var (key, value) := obj.fields[i];
        var newPath := if currentPath != "" then currentPath + "." + key else key;
        if value.Str? && keep(value.s) {
          r := r + [newPath];
        } else {
          r := GetAllKeyPaths(value, newPath, r, keep);
        }
        assert r == before + ChildPaths(obj, i, currentPath, keep);
      }
    }
  }

  // ---------------------------------------------------------------------
  // Positions: which strings are listed, and in what order
  // ---------------------------------------------------------------------

  /** A place in the value: the child numbers on the way down from the root. */
  type Position = seq<nat>

  /** The place holds a string that is the value of an object property and passes the filter. */
  predicate Hit(obj: Json, p: Position, keep: Filter)
    decreases |p|
  {
    && |p| > 0
    && p[0] < ChildCount(obj)
    && var c := Child(obj, p[0]);
       if |p| == 1 then obj.Obj? && c.Str? && keep(c.s) else Hit(c, p[1..], keep)
  }

  /** The place leads somewhere. */
  predicate Leads(obj: Json, p: Position)
    decreases |p|
  {
    |p| == 0 || (p[0] < ChildCount(obj) && Leads(Child(obj, p[0]), p[1..]))
  }

  lemma {:induction false} HitLeads(obj: Json, p: Position, keep: Filter)
    requires Hit(obj, p, keep)
    ensures Leads(obj, p)
    decreases |p|
  {
    if |p| == 1 { assert p[1..] == []; } else { HitLeads(Child(obj, p[0]), p[1..], keep); }
  }

  function Steps(obj: Json, p: Position): seq<Step>
    requires Leads(obj, p)
    decreases |p|
  {
    if |p| == 0 then [] else [StepTo(obj, p[0])] + Steps(Child(obj, p[0]), p[1..])
  }

  function Print(path: string, steps: seq<Step>): string
    decreases |steps|
  {
    if steps == [] then path else Print(Extend(path, steps[0]), steps[1..])
  }

  /** Document order: at the first difference the smaller child number comes first. */
  predicate Before(p: Position, q: Position)
    decreases |p|
  {
    if |p| == 0 || |q| == 0 then |p| < |q|
    else p[0] < q[0] || (p[0] == q[0] && Before(p[1..], q[1..]))
  }

  lemma {:induction false} BeforeIsStrict(p: Position)
    ensures !Before(p, p)
    decreases |p|
  {
    if p != [] { BeforeIsStrict(p[1..]); }
  }

  predicate InOrder(ps: seq<Position>) {
    forall i, j :: 0 <= i < j < |ps| ==> Before(ps[i], ps[j])
  }

  function Prefixed(i: nat, ps: seq<Position>): seq<Position> {
    seq(|ps|, k requires 0 <= k < |ps| => [i] + ps[k])
  }

  /** The places of the listed strings, in the order of the traversal. */
  function Places(obj: Json, keep: Filter): seq<Position>
    decreases obj, ChildCount(obj) + 1
  {
    PlacesUpTo(obj, ChildCount(obj), keep)
  }

  function PlacesUpTo(obj: Json, n: nat, keep: Filter): seq<Position>
    requires n <= ChildCount(obj)
    decreases obj, n
  {
    if n == 0 then []
    else PlacesUpTo(obj, n - 1, keep) + Prefixed(n - 1, ChildPlaces(obj, n - 1, keep))
  }

  function ChildPlaces(obj: Json, i: nat, keep: Filter): seq<Position>
    requires i < ChildCount(obj)
    decreases obj, 0
  {
    var c := Child(obj, i);
    if obj.Obj? && c.Str? && keep(c.s) then [[]] else Places(c, keep)
  }

  /** The places are exactly the hits, and they come in document order. */
  lemma {:induction false} PlacesAreHits(obj: Json, keep: Filter)
    ensures InOrder(Places(obj, keep))
    ensures forall p :: p in Places(obj, keep) <==> Hit(obj, p, keep)
    decreases obj, ChildCount(obj) + 1
  {
    PlacesUpToAreHits(obj, ChildCount(obj), keep);
  }

  lemma PrefixedMember(i: nat, ps: seq<Position>, p: Position)
    ensures p in Prefixed(i, ps) <==> |p| > 0 && p[0] == i && p[1..] in ps
  {
    var r := Prefixed(i, ps);
    if p in r {
      var k :| 0 <= k < |r| && r[k] == p;
      assert p[1..] == ps[k];
    }
    if |p| > 0 && p[0] == i && p[1..] in ps {
      var k :| 0 <= k < |ps| && ps[k] == p[1..];
      assert r[k] == [i] + ps[k] == p;
    }
  }

  lemma {:induction false} PlacesUpToAreHits(obj: Json, n: nat, keep: Filter)
    requires n <= ChildCount(obj)
    ensures InOrder(PlacesUpTo(obj, n, keep))
    ensures forall p :: p in PlacesUpTo(obj, n, keep) <==> Hit(obj, p, keep) && p[0] < n
    decreases obj, n
  {
    if n > 0 {
      var last := n - 1;
      PlacesUpToAreHits(obj, last, keep);
      ChildPlacesAreHits(obj, last, keep);
      var a, b := PlacesUpTo(obj, last, keep), ChildPlaces(obj, last, keep);
      forall p ensures p in Prefixed(last, b) <==> |p| > 0 && p[0] == last && p[1..] in b { PrefixedMember(last, b, p); }
      OrderConcat(a, last, b);
    }
  }

  lemma OrderConcat(a: seq<Position>, last: nat, b: seq<Position>)
    requires InOrder(a) && InOrder(b)
    requires forall p :: p in a ==> |p| > 0 && p[0] < last
    ensures InOrder(a + Prefixed(last, b))
  {
    var pb := Prefixed(last, b);
    var all := a + pb;
    forall i, j | 0 <= i < j < |all| ensures Before(all[i], all[j]) {
      if i < |a| && j >= |a| {
        assert a[i] in a;
        assert all[j] == pb[j - |a|];
      } else if i >= |a| {
        var x, y := b[i - |a|], b[j - |a|];
        assert all[i] == [last] + x && all[j] == [last] + y;
        assert ([last] + x)[1..] == x && ([last] + y)[1..] == y;
        assert Before(x, y);
      }
    }
  }

  lemma {:induction false} ChildPlacesAreHits(obj: Json, i: nat, keep: Filter)
    requires i < ChildCount(obj)
    ensures InOrder(ChildPlaces(obj, i, keep))
    ensures forall p :: |p| > 0 && p[0] == i ==> (p[1..] in ChildPlaces(obj, i, keep) <==> Hit(obj, p, keep))
    ensures forall q :: q in ChildPlaces(obj, i, keep) ==> Hit(obj, [i] + q, keep)
    decreases obj, 0
  {
    var c := Child(obj, i);
    var places := ChildPlaces(obj, i, keep);
    if !(obj.Obj? && c.Str? && keep(c.s)) { PlacesAreHits(c, keep); }
    forall p: Position | |p| > 0 && p[0] == i ensures p[1..] in places <==> Hit(obj, p, keep) {
      if |p| == 1 { assert p[1..] == []; }
    }
    forall q | q in places ensures Hit(obj, [i] + q, keep) {
      assert ([i] + q)[1..] == q;
    }
  }

  /** The printed paths are those of the places, one for one. */
  lemma {:induction false} PathsArePlaces(obj: Json, path: string, keep: Filter)
    ensures |Paths(obj, path, keep)| == |Places(obj, keep)|
    ensures forall k :: 0 <= k < |Places(obj, keep)| ==>
      && Leads(obj, Places(obj, keep)[k])
      && Paths(obj, path, keep)[k] == Print(path, Steps(obj, Places(obj, keep)[k]))
    decreases obj, ChildCount(obj) + 1
  {
    PathsArePlacesUpTo(obj, ChildCount(obj), path, keep);
  }

  lemma {:induction false} PathsArePlacesUpTo(obj: Json, n: nat, path: string, keep: Filter)
    requires n <= ChildCount(obj)
    ensures |PathsUpTo(obj, n, path, keep)| == |PlacesUpTo(obj, n, keep)|
    ensures forall k :: 0 <= k < |PlacesUpTo(obj, n, keep)| ==>
      && Leads(obj, PlacesUpTo(obj, n, keep)[k])
      && PathsUpTo(obj, n, path, keep)[k] == Print(path, Steps(obj, PlacesUpTo(obj, n, keep)[k]))
    decreases obj, n
  {
    if n > 0 {
      var last := n - 1;
      PathsArePlacesUpTo(obj, last, path, keep);
      var newPath := Extend(path, StepTo(obj, last));
      var c := Child(obj, last);
      var b := ChildPlaces(obj, last, keep);
      if obj.Obj? && c.Str? && keep(c.s) {
        PrintDown(obj, last, [], path);
        assert Print(newPath, []) == newPath;
      } else {
        PathsArePlaces(c, newPath, keep);
        forall k | 0 <= k < |b|
          ensures Leads(obj, [last] + b[k])
          ensures Print(path, Steps(obj, [last] + b[k])) == Print(newPath, Steps(c, b[k]))
        {
          PrintDown(obj, last, b[k], path);
        }
      }
    }
  }

  lemma PrintDown(obj: Json, i: nat, q: Position, path: string)
    requires i < ChildCount(obj) && Leads(Child(obj, i), q)
    ensures Leads(obj, [i] + q)
    ensures Print(path, Steps(obj, [i] + q)) == Print(Extend(path, StepTo(obj, i)), Steps(Child(obj, i), q))
  {
    var p := [i] + q;
    assert p[1..] == q;
    assert Steps(obj, p)[1..] == Steps(Child(obj, i), q);
  }

  // ---------------------------------------------------------------------
  // Reading a printed path back
  // ---------------------------------------------------------------------

  function DigitValue(c: char): nat {
    if '0' <= c <= '9' then (c - '0') as nat else 0
  }

  function NatOf(s: string): nat {
    if s == "" then 0 else 10 * NatOf(s[..|s| - 1]) + DigitValue(s[|s| - 1])
  }

  /** Where the first of the given characters stands, or the length. */
  function Find(s: string, stops: set<char>): (n: nat)
    ensures n <= |s| && (forall i :: 0 <= i < n ==> s[i] !in stops) && (n < |s| ==> s[n] in stops)
  {
    if s == "" || s[0] in stops then 0 else 1 + Find(s[1..], stops)
  }

  lemma FindAt(a: string, b: string, stops: set<char>)
    requires forall i :: 0 <= i < |a| ==> a[i] !in stops
    requires b == "" || b[0] in stops
    ensures Find(a + b, stops) == |a|
  {
    var n := Find(a + b, stops);
    assert forall i :: 0 <= i < |a| ==> (a + b)[i] == a[i];
    if b != "" { assert (a + b)[|a|] == b[0]; }
  }

  /** Reads the steps after the first one. */
  function ReadTail(s: string): Option<seq<Step>>
    decreases |s|
  {
    if s == "" then Some([])
    else if s[0] == '[' then
      var n := Find(s[1..], {']'});
      if n == |s| - 1 then None
      else
        match ReadTail(s[n + 2..])
        case None => None
        case Some(rest) => Some([Index(NatOf(s[1..n + 1]))] + rest)
    else if s[0] == '.' then
      var n := Find(s[1..], {'.', '['});
      match ReadTail(s[n + 1..])
      case None => None
      case Some(rest) => Some([Key(s[1..n + 1])] + rest)
    else None
  }

  /** Reads a whole path: the first key has no dot before it. */
  function Read(s: string): Option<seq<Step>> {
    if s == "" || s[0] == '[' then ReadTail(s) else ReadTail("." + s)
  }

  predicate GoodKey(key: string) {
    key != "" && forall i :: 0 <= i < |key| ==> key[i] != '.' && key[i] != '['
  }

  predicate GoodSteps(steps: seq<Step>) {
    forall i :: 0 <= i < |steps| && steps[i].Key? ==> GoodKey(steps[i].key)
  }

  function Segment(step: Step): string {
    match step
    case Index(i) => "[" + Digits(i) + "]"
    case Key(key) => "." + key
  }

  function Segments(steps: seq<Step>): string {
    if steps == [] then "" else Segment(steps[0]) + Segments(steps[1..])
  }

  lemma {:induction false} DigitsRead(n: nat)
    ensures NatOf(Digits(n)) == n && |Digits(n)| > 0
    ensures forall i :: 0 <= i < |Digits(n)| ==> '0' <= Digits(n)[i] <= '9'
    decreases n
  {
    if n < 10 {
      var s := [Digit(n)];
      assert s[..0] == "";
      assert NatOf(s) == 10 * NatOf("") + DigitValue(s[0]);
    } else {
      DigitsRead(n / 10);
      var s := Digits(n / 10) + [Digit(n % 10)];
      assert s[..|s| - 1] == Digits(n / 10);
    }
  }

  /** An index is printed in decimal without a leading zero. */
  lemma {:induction false} NoLeadingZero(n: nat)
    ensures Digits(n)[..1] == "0" <==> n == 0
    decreases n
  {
    DigitsRead(n);
    if n >= 10 {
      DigitsRead(n / 10);
      NoLeadingZero(n / 10);
      assert Digits(n)[..1] == Digits(n / 10)[..1];
    } else {
      assert Digits(n)[..1] == [Digit(n)];
    }
  }

  lemma ExtendIsSegment(path: string, step: Step)
    requires path != ""
    ensures Extend(path, step) == path + Segment(step)
  {
  }

  lemma {:induction false} PrintIsSegments(path: string, steps: seq<Step>)
    requires path != ""
    ensures Print(path, steps) == path + Segments(steps)
    decreases |steps|
  {
    if steps != [] {
      var rest := Segments(steps[1..]);
      ExtendIsSegment(path, steps[0]);
      PrintIsSegments(path + Segment(steps[0]), steps[1..]);
      assert (path + Segment(steps[0])) + rest == path + (Segment(steps[0]) + rest);
    }
  }

  lemma SegmentsStart(steps: seq<Step>)
    ensures Segments(steps) == "" || Segments(steps)[0] in {'.', '['}
  {
  }

  lemma SplitIndex(d: string, rest: string)
    ensures
      var s := "[" + d + "]" + rest;
      s != "" && s[0] == '[' && s[1..] == d + ("]" + rest) && s[1..|d| + 1] == d && s[|d| + 2..] == rest
  {
  }

  lemma ReadIndexSegment(i: nat, rest: string, steps: seq<Step>)
    requires ReadTail(rest) == Some(steps)
    ensures ReadTail(Segment(Index(i)) + rest) == Some([Index(i)] + steps)
  {
    DigitsRead(i);
    SplitIndex(Digits(i), rest);
    FindAt(Digits(i), "]" + rest, {']'});
  }

  lemma SplitAfterFirst(first: char, body: string, rest: string)
    ensures var s := [first] + body + rest;
            s != "" && s[0] == first && s[1..] == body + rest && s[1..|body| + 1] == body && s[|body| + 1..] == rest
  {
  }

  lemma ReadKeySegment(key: string, rest: string, steps: seq<Step>)
    requires GoodKey(key) && ReadTail(rest) == Some(steps)
    requires rest == "" || rest[0] in {'.', '['}
    ensures ReadTail(Segment(Key(key)) + rest) == Some([Key(key)] + steps)
  {
    SplitAfterFirst('.', key, rest);
    FindAt(key, rest, {'.', '['});
  }

  lemma {:induction false} ReadSegments(steps: seq<Step>)
    requires GoodSteps(steps)
    ensures ReadTail(Segments(steps)) == Some(steps)
    decreases |steps|
  {
    if steps != [] {
      var rest := Segments(steps[1..]);
      ReadSegments(steps[1..]);
      SegmentsStart(steps[1..]);
      match steps[0] {
        case Index(i) => ReadIndexSegment(i, rest, steps[1..]);
        case Key(key) => ReadKeySegment(key, rest, steps[1..]);
      }
      assert steps == [steps[0]] + steps[1..];
    }
  }

  lemma PrintFromKey(key: string, rest: seq<Step>)
    requires GoodKey(key)
    ensures Print("", [Key(key)] + rest) == key + Segments(rest)
    ensures Segments([Key(key)] + rest) == "." + key + Segments(rest)
  {
    assert ([Key(key)] + rest)[1..] == rest;
    PrintIsSegments(key, rest);
  }

  lemma PrintFromIndex(i: nat, rest: seq<Step>)
    ensures Print("", [Index(i)] + rest) == Segments([Index(i)] + rest) && Segments([Index(i)] + rest)[..1] == "["
  {
    assert ([Index(i)] + rest)[1..] == rest;
    assert "" + "[" + Digits(i) + "]" == Segment(Index(i));
    PrintIsSegments(Segment(Index(i)), rest);
  }

  lemma PrintFromRoot(steps: seq<Step>)
    requires GoodSteps(steps) && steps != []
    ensures Print("", steps) != ""
    ensures steps[0].Index? ==> Print("", steps) == Segments(steps) && Print("", steps)[0] == '['
    ensures steps[0].Key? ==> "." + Print("", steps) == Segments(steps) && Print("", steps)[0] != '['
  {
    assert steps == [steps[0]] + steps[1..];
    match steps[0] {
      case Index(i) => PrintFromIndex(i, steps[1..]);
      case Key(key) =>
        PrintFromKey(key, steps[1..]);
        assert "." + (key + Segments(steps[1..])) == "." + key + Segments(steps[1..]);
    }
  }

  /** A reader gets back the steps of every printed path whose keys are non-empty and have no dot or bracket. */
  lemma ReadPrinted(steps: seq<Step>)
    requires GoodSteps(steps)
    ensures Read(Print("", steps)) == Some(steps)
  {
    if steps != [] {
      PrintFromRoot(steps);
      ReadSegments(steps);
    }
  }

  // ---------------------------------------------------------------------
  // Locating what was read
  // ---------------------------------------------------------------------

  /** Keys of one object differ, and every key is good. */
  predicate GoodObject(obj: Json)
    decreases obj
  {
    && (obj.Obj? ==>
         && (forall i :: 0 <= i < |obj.fields| ==> GoodKey(obj.fields[i].0))
         && (forall i, j :: 0 <= i < j < |obj.fields| ==> obj.fields[i].0 != obj.fields[j].0))
    && forall i :: 0 <= i < ChildCount(obj) ==> GoodObject(Child(obj, i))
  }

  /** The child a step leads to. */
  function ChildAt(obj: Json, step: Step, from: nat): (r: Option<nat>)
    requires from <= ChildCount(obj)
    ensures r.Some? ==> from <= r.value < ChildCount(obj) && StepTo(obj, r.value) == step
    decreases ChildCount(obj) - from
  {
    if from == ChildCount(obj) then None
    else if StepTo(obj, from) == step then Some(from)
    else ChildAt(obj, step, from + 1)
  }

  function Locate(obj: Json, steps: seq<Step>): Option<Position>
    decreases |steps|
  {
    if steps == [] then Some([])
    else
      match ChildAt(obj, steps[0], 0)
      case None => None
      case Some(i) =>
        match Locate(Child(obj, i), steps[1..])
        case None => None
        case Some(rest) => Some([i] + rest)
  }

  lemma {:induction false} ChildAtFinds(obj: Json, i: nat, from: nat)
    requires GoodObject(obj) && from <= i < ChildCount(obj)
    ensures ChildAt(obj, StepTo(obj, i), from) == Some(i)
    decreases i - from
  {
    if from < i {
      assert StepTo(obj, from) != StepTo(obj, i);
      ChildAtFinds(obj, i, from + 1);
    }
  }

  lemma {:induction false} LocateFinds(obj: Json, p: Position)
    requires GoodObject(obj) && Leads(obj, p)
    ensures GoodSteps(Steps(obj, p)) && Locate(obj, Steps(obj, p)) == Some(p)
    decreases |p|
  {
    if p != [] {
      ChildAtFinds(obj, p[0], 0);
      LocateFinds(Child(obj, p[0]), p[1..]);
      assert Steps(obj, p)[1..] == Steps(Child(obj, p[0]), p[1..]);
      assert p == [p[0]] + p[1..];
    }
  }

  /** The place a printed path names. */
  function PlaceOf(obj: Json, path: string): Option<Position> {
    match Read(path)
    case None => None
    case Some(steps) => Locate(obj, steps)
  }

  /**
   * The call lists the paths of exactly the object-property strings that pass the filter, each once and
   * in document order; with good keys each path names its string and no two paths are equal.
   */
  lemma ListedPathsNameTheirStrings(obj: Json, keep: Filter)
    requires GoodObject(obj)
    ensures |Paths(obj, "", keep)| == |Places(obj, keep)|
    ensures InOrder(Places(obj, keep)) && forall p :: p in Places(obj, keep) <==> Hit(obj, p, keep)
    ensures forall k :: 0 <= k < |Places(obj, keep)| ==> PlaceOf(obj, Paths(obj, "", keep)[k]) == Some(Places(obj, keep)[k])
    ensures forall i, j :: 0 <= i < j < |Paths(obj, "", keep)| ==> Paths(obj, "", keep)[i] != Paths(obj, "", keep)[j]
  {
    var paths, places := Paths(obj, "", keep), Places(obj, keep);
    PlacesAreHits(obj, keep);
    PathsArePlaces(obj, "", keep);
    forall k | 0 <= k < |places| ensures PlaceOf(obj, paths[k]) == Some(places[k]) {
      LocateFinds(obj, places[k]);
      ReadPrinted(Steps(obj, places[k]));
    }
    forall i, j | 0 <= i < j < |paths| ensures paths[i] != paths[j] {
      BeforeIsStrict(places[i]);
      assert Before(places[i], places[j]);
    }
  }

  /** A dot in a key is enough for two strings to get the same path. */
  lemma DotsCollide(keep: Filter)
    requires keep("v")
    ensures
      var obj := Obj([("a.b", Str("v")), ("a", Obj([("b", Str("v"))]))]);
      Paths(obj, "", keep) == ["a.b", "a.b"]
  {
    var inner := Obj([("b", Str("v"))]);
    var obj := Obj([("a.b", Str("v")), ("a", inner)]);
    assert Child(obj, 0) == Str("v") && Child(obj, 1) == inner && Child(inner, 0) == Str("v");
    assert "a" + "." + "b" == "a.b";
    assert PathsUpTo(inner, 0, "a", keep) == [];
    assert PathsUpTo(inner, 1, "a", keep) == [] + ChildPaths(inner, 0, "a", keep) == ["a.b"];
    assert ChildPaths(obj, 1, "", keep) == Paths(inner, "a", keep) == ["a.b"];
    assert PathsUpTo(obj, 0, "", keep) == [];
    assert PathsUpTo(obj, 1, "", keep) == [] + ChildPaths(obj, 0, "", keep) == ["a.b"];
    assert PathsUpTo(obj, 2, "", keep) == ["a.b"] + ["a.b"];
  }

  /** Items are counted from zero, an item's path starts with a bracket, and a key after it with a dot. */
  lemma ItemsAreCountedFromZero(keep: Filter)
    requires keep("v")
    ensures Paths(Arr([Null, Obj([("k", Str("v"))])]), "", keep) == ["[1].k"]
    ensures Paths(Obj([("a", Arr([Obj([("k", Str("v"))])]))]), "", keep) == ["a[0].k"]
  {
    var inner := Obj([("k", Str("v"))]);
    var arr, one := Arr([Null, inner]), Arr([inner]);
    assert Child(inner, 0) == Str("v") && Digits(0) == "0" && Digits(1) == "1";
    forall path: string | path != "" ensures Paths(inner, path, keep) == [path + ".k"] {
      assert path + "." + "k" == path + ".k";
      assert PathsUpTo(inner, 0, path, keep) == [] && PathsUpTo(inner, 1, path, keep) == [] + ChildPaths(inner, 0, path, keep);
    }
    assert "" + "[" + "1" + "]" == "[1]" && "[1]" + ".k" == "[1].k";
    assert Child(arr, 0) == Null && Child(arr, 1) == inner && PathsUpTo(Null, 0, "[0]", keep) == [];
    assert ChildPaths(arr, 1, "", keep) == ["[1].k"] && PathsUpTo(arr, 0, "", keep) == [];
    assert PathsUpTo(arr, 1, "", keep) == [] + ChildPaths(arr, 0, "", keep) == [];
    assert PathsUpTo(arr, 2, "", keep) == [] + ["[1].k"];
    assert "a" + "[" + "0" + "]" == "a[0]" && "a[0]" + ".k" == "a[0].k";
    assert Child(one, 0) == inner && PathsUpTo(one, 0, "a", keep) == [];
    assert PathsUpTo(one, 1, "a", keep) == [] + ["a[0].k"];
    var obj := Obj([("a", one)]);
    assert Child(obj, 0) == one && PathsUpTo(obj, 0, "", keep) == [];
    assert PathsUpTo(obj, 1, "", keep) == [] + Paths(one, "a", keep);
  }
}
