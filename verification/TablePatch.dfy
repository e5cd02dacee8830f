/** Patching the game tables: a JSON patch merged into a JSON value. */
module TablePatch {
  datatype Json =
    | Null
    | Bool(b: bool)
    | Int(i: int)
    | Unsigned(n: nat)
    | Float(r: real)
    | Str(s: string)
    | Arr(elems: seq<Json>)
    | Obj(fields: map<string, Json>)

  datatype Option<T> = None | Some(value: T)

  function Look(fields: map<string, Json>, t: string): Option<Json> {
    if t in fields then Some(fields[t]) else None
  }

  // is_number_integer holds of both signed and unsigned integers
  predicate Integral(j: Json) {
    j.Int? || j.Unsigned?
  }

  predicate SameKind(a: Json, b: Json) {
    match a
    case Null => b.Null?
    case Bool(_) => b.Bool?
    case Int(_) => b.Int?
    case Unsigned(_) => b.Unsigned?
    case Float(_) => b.Float?
    case Str(_) => b.Str?
    case Arr(_) => b.Arr?
    case Obj(_) => b.Obj?
  }

  // Two values of these kinds can be combined.
  predicate Compatible(a: Json, b: Json) {
    SameKind(a, b) || (Integral(a) && Integral(b))
  }

  // ---- keys

  predicate Forced(key: string) {
    |key| > 0 && key[0] == '!'
  }

  // The order in which the properties of an object are visited.
  predicate Less(a: string, b: string) {
    if |b| == 0 then false
    else if |a| == 0 then true
    else if a[0] != b[0] then a[0] < b[0]
    else Less(a[1..], b[1..])
  }

  // A plain key is visited before the forced key for the same property if it sorts before '!'.
  predicate PlainFirst(t: string) {
    |t| == 0 || t[0] < '!'
  }

  lemma PlainFirstIsOrder(t: string)
    requires !Forced(t)
    ensures Less(t, "!" + t) <==> PlainFirst(t)
    ensures Less("!" + t, t) <==> !PlainFirst(t)
  {
  }

  // ---- the merge, property by property

  // A plain property of a patch against what is there.
  function Merged(was: Option<Json>, p: Json): Option<Json>
    decreases p, 2
  {
    match was
    case None => Some(p)
    case Some(b) => if p.Null? then None else Some(Patched(b, p))
  }

  /** What becomes of property `t` of an object when the properties `done` of the patch have been
      visited: a forced one replaces it, a plain one is merged, in the order of their keys. */
  function Property(base: map<string, Json>, patch: Json, done: set<string>, t: string): Option<Json>
    requires patch.Obj? && done <= patch.fields.Keys
    decreases patch, 0
  {
    var plain, forced := !Forced(t) && t in done, "!" + t in done;
    if plain && forced then
      if PlainFirst(t) then Some(patch.fields["!" + t]) else Merged(Some(patch.fields["!" + t]), patch.fields[t])
    else if forced then Some(patch.fields["!" + t])
    else if plain then Merged(Look(base, t), patch.fields[t])
    else Look(base, t)
  }

  function Targets(patch: map<string, Json>): set<string> {
    patch.Keys + set k | k in patch && Forced(k) :: k[1..]
  }

  function Patched(base: Json, patch: Json): Json
    decreases patch, 1
  {
    if patch.Null? || base.Null? || !Compatible(base, patch) then base
    else match patch
      case Arr(elems) => Arr(base.elems + elems)
      case Obj(fields) =>
        Obj(map t | t in base.fields.Keys + Targets(fields) && Property(base.fields, patch, fields.Keys, t).Some? ::
              Property(base.fields, patch, fields.Keys, t).value)
      case _ => patch
  }

  // ---- the key loop

  lemma LessTotal(a: string, b: string)
    ensures a == b || Less(a, b) || Less(b, a)
    ensures !(Less(a, b) && Less(b, a)) && !Less(a, a)
  {
  }

  lemma LessTransitive(a: string, b: string, c: string)
    requires Less(a, b) && Less(b, c)
    ensures Less(a, c)
  {
  }

  predicate IsFirst(keys: set<string>, k: string) {
    k in keys && forall j | j in keys && j != k :: Less(k, j)
  }

  lemma {:induction false} HasFirst(keys: set<string>)
    requires keys != {}
    ensures exists k :: IsFirst(keys, k)
  {
    var x :| x in keys;
    if keys == {x} {
      assert IsFirst(keys, x);
    } else {
      HasFirst(keys - {x});
      var k :| IsFirst(keys - {x}, k);
      LessTotal(x, k);
      if Less(k, x) {
        assert IsFirst(keys, k);
      } else {
        forall j | j in keys && j != x
          ensures Less(x, j)
        {
          if j != k {
            LessTransitive(x, k, j);
          }
        }
        assert IsFirst(keys, x);
      }
    }
  }

  // The properties in `done` have been visited, those in `todo` come after all of them.
  ghost predicate Visited(keys: set<string>, done: set<string>, todo: set<string>) {
    done + todo == keys && done !! todo && forall a, b | a in done && b in todo :: Less(a, b)
  }

  // The object after those visits.
  ghost predicate Agrees(now: map<string, Json>, base: map<string, Json>, patch: Json, done: set<string>)
    requires patch.Obj? && done <= patch.fields.Keys
  {
    forall t :: Look(now, t) == Property(base, patch, done, t)
  }

  lemma ForcedStep(now: map<string, Json>, base: map<string, Json>, patch: Json, done: set<string>,
      todo: set<string>, k: string)
    requires patch.Obj? && Visited(patch.fields.Keys, done, todo) && Agrees(now, base, patch, done) && k in todo
        && Forced(k)
    ensures Agrees(now[k[1..] := patch.fields[k]], base, patch, done + {k})
  {
    var now' := now[k[1..] := patch.fields[k]];
    assert k == "!" + k[1..];
    forall t
      ensures Look(now', t) == Property(base, patch, done + {k}, t)
    {
      if t == k[1..] {
        if !Forced(t) && t in done {
          assert Less(t, k);
          PlainFirstIsOrder(t);
          LessTotal(t, k);
        }
      } else {
        assert "!" + t != k by { assert ("!" + t)[1..] == t; }
        assert Look(now, t) == Property(base, patch, done, t);
      }
    }
  }

  lemma PlainStep(now: map<string, Json>, base: map<string, Json>, patch: Json, done: set<string>,
      todo: set<string>, k: string)
    requires patch.Obj? && Visited(patch.fields.Keys, done, todo) && Agrees(now, base, patch, done) && k in todo
        && !Forced(k)
    ensures var m := Merged(Look(now, k), patch.fields[k]);
            Agrees(if m.Some? then now[k := m.value] else now - {k}, base, patch, done + {k})
  {
    var m := Merged(Look(now, k), patch.fields[k]);
    var now' := if m.Some? then now[k := m.value] else now - {k};
    forall t
      ensures Look(now', t) == Property(base, patch, done + {k}, t)
    {
      assert "!" + t != k by { assert ("!" + t)[0] == '!'; }
      assert Look(now, t) == Property(base, patch, done, t);
      if t == k && "!" + t in done {
        assert Less("!" + t, k);
        PlainFirstIsOrder(t);
      }
    }
  }

  lemma AgreesAll(now: map<string, Json>, base: Json, patch: Json)
    requires patch.Obj? && base.Obj? && Agrees(now, base.fields, patch, patch.fields.Keys)
    ensures Obj(now) == Patched(base, patch)
  {
    var result := Patched(base, patch).fields;
    forall t
      ensures t in now <==> t in result
      ensures t in now ==> now[t] == result[t]
    {
      assert Look(now, t) == Property(base.fields, patch, patch.fields.Keys, t);
      if t in now && t !in base.fields && t !in patch.fields {
        var k := "!" + t;
        assert Forced(k) && k[1..] == t;
      }
    }
  }

  /** patchJSON: the loops over the elements and the properties of the patch come to the merge. */
  method PatchJSON(base: Json, patch: Json) returns (result: Json)
    ensures result == Patched(base, patch)
    decreases patch
  {
    if patch.Null? || base.Null? {
      return base;
    }
    if !SameKind(base, patch) {
      if !(Integral(base) && Integral(patch)) {
        return base;
      }
    }
    if patch.Arr? {
      var elems := base.elems;
      for i := 0 to |patch.elems|
        invariant elems == base.elems + patch.elems[..i]
      {
        elems := elems + [patch.elems[i]];
      }
      assert patch.elems[..|patch.elems|] == patch.elems;
      result := Arr(elems);
    } else if patch.Obj? {
      var now := base.fields;
      var todo := patch.fields.Keys;
      ghost var done: set<string> := {};
      while todo != {}
        invariant Visited(patch.fields.Keys, done, todo) && Agrees(now, base.fields, patch, done)
        decreases todo
      {
        HasFirst(todo);
        var key :| key in todo && IsFirst(todo, key);
        var valLoc := patch.fields[key];
        if Forced(key) {
          ForcedStep(now, base.fields, patch, done, todo, key);
          now := now[key[1..] := valLoc];
        } else {
          PlainStep(now, base.fields, patch, done, todo, key);
          if key in now {
            if valLoc.Null? {
              now := now - {key};
            } else {
              var merged := PatchJSON(now[key], valLoc);
              now := now[key := merged];
            }
          } else {
            now := now[key := valLoc];
          }
        }
        VisitedMore(patch.fields.Keys, done, todo, key);
        todo, done := todo - {key}, done + {key};
      }
      assert done == patch.fields.Keys;
      AgreesAll(now, base, patch);
      result := Obj(now);
    } else {
      result := patch;
    }
  }

  lemma VisitedMore(keys: set<string>, done: set<string>, todo: set<string>, k: string)
    requires Visited(keys, done, todo) && IsFirst(todo, k)
    ensures Visited(keys, done + {k}, todo - {k})
  {
  }

  // ---- what a patch does not change

  /** Any patch leaves a value the kind it is, but for signed and unsigned integers. */
  lemma RootKind(base: Json, patch: Json)
    ensures Compatible(base, Patched(base, patch))
  {
  }

  // No arrays, nulls or forced keys anywhere in it.
  predicate Mild(p: Json) {
    match p
    case Null => false
    case Arr(_) => false
    case Obj(fields) => forall k | k in fields :: !Forced(k) && Mild(fields[k])
    case _ => true
  }

  lemma BangIsForced(t: string)
    ensures Forced("!" + t) && "!" + t != t
  {
  }

  // A mild patch is merged property by property.
  lemma MildProperty(base: map<string, Json>, patch: Json, t: string)
    requires patch.Obj? && Mild(patch)
    ensures Property(base, patch, patch.fields.Keys, t)
         == if t !in patch.fields then Look(base, t)
            else if t !in base then Some(patch.fields[t])
            else Some(Patched(base[t], patch.fields[t]))
  {
  }

  lemma MildFields(base: Json, patch: Json)
    requires patch.Obj? && base.Obj? && Mild(patch)
    ensures Patched(base, patch).Obj?
    ensures Patched(base, patch).fields.Keys == base.fields.Keys + patch.fields.Keys
    ensures forall t | t in Patched(base, patch).fields :: Patched(base, patch).fields[t] ==
              if t !in patch.fields then base.fields[t]
              else if t !in base.fields then patch.fields[t]
              else Patched(base.fields[t], patch.fields[t])
  {
    var result := Patched(base, patch).fields;
    forall t
      ensures t in result <==> t in base.fields || t in patch.fields
    {
      MildProperty(base.fields, patch, t);
    }
    forall t | t in result
      ensures result[t] == if t !in patch.fields then base.fields[t]
                           else if t !in base.fields then patch.fields[t]
                           else Patched(base.fields[t], patch.fields[t])
    {
      MildProperty(base.fields, patch, t);
    }
  }

  // ---- applying a patch again

  // Property `t` is given by a plain key alone, so what is there before matters.
  predicate PlainOnly(fields: map<string, Json>, t: string) {
    t in fields && !Forced(t) && "!" + t !in fields
  }

  // A forced key that finds its own value, or what its plain counterpart makes of it.
  predicate ForcedFixed(fields: map<string, Json>, k: string)
    requires k in fields && Forced(k)
  {
    var t := k[1..];
    && t in fields
    && if Forced(t) || PlainFirst(t) then fields[t] == fields[k]
       else !fields[t].Null? && Patched(fields[k], fields[t]) == fields[t]
  }

  // A value that does not change when it is patched with itself.
  predicate Fixed(p: Json) {
    match p
    case Arr(elems) => |elems| == 0
    case Obj(fields) =>
      && (forall k | k in fields && Forced(k) :: ForcedFixed(fields, k))
      && (forall k | k in fields && PlainOnly(fields, k) :: !fields[k].Null? && Fixed(fields[k]))
    case _ => true
  }

  // No array that adds, and under no plain key without a forced one a null or a value that changes
  // when it is patched with itself.
  predicate Stable(p: Json) {
    match p
    case Arr(elems) => |elems| == 0
    case Obj(fields) => forall t | t in fields && PlainOnly(fields, t) :: !fields[t].Null? && Fixed(fields[t])
    case _ => true
  }

  // Every property of the result, present or not.
  lemma PatchedAt(base: Json, patch: Json)
    requires patch.Obj? && base.Obj?
    ensures Patched(base, patch).Obj?
    ensures forall t :: Look(Patched(base, patch).fields, t) == Property(base.fields, patch, patch.fields.Keys, t)
  {
    var result := Patched(base, patch).fields;
    forall t
      ensures Look(result, t) == Property(base.fields, patch, patch.fields.Keys, t)
    {
      if t !in base.fields && t !in patch.fields && "!" + t in patch.fields {
        BangIsForced(t);
        assert ("!" + t)[1..] == t;
      }
    }
  }

  lemma SameFields(a: map<string, Json>, b: map<string, Json>)
    requires forall t :: Look(a, t) == Look(b, t)
    ensures a == b
  {
    forall t
      ensures t in a <==> t in b
      ensures t in a ==> a[t] == b[t]
    {
      assert Look(a, t) == Look(b, t);
    }
  }

  // What property `t` of an object becomes when the object is patched with itself.
  lemma SelfProperty(p: Json, t: string)
    requires p.Obj?
    ensures var q := Property(p.fields, p, p.fields.Keys, t);
            q == Look(p.fields, t) <==>
              && ("!" + t in p.fields ==> ForcedFixed(p.fields, "!" + t))
              && (PlainOnly(p.fields, t) ==> !p.fields[t].Null? && Patched(p.fields[t], p.fields[t]) == p.fields[t])
  {
    BangIsForced(t);
    assert ("!" + t)[1..] == t;
  }

  lemma BangBack(k: string)
    requires Forced(k)
    ensures k == "!" + k[1..]
  {
  }

  /** Patching a value with itself changes nothing exactly if it is fixed. */
  lemma {:induction false} FixedIff(p: Json)
    ensures Patched(p, p) == p <==> Fixed(p)
    decreases p
  {
    if p.Arr? {
      assert |p.elems + p.elems| == 2 * |p.elems|;
      if |p.elems| == 0 {
        assert p.elems + p.elems == p.elems;
      }
    }
    if p.Obj? {
      PatchedAt(p, p);
      forall t
        ensures Look(Patched(p, p).fields, t) == Look(p.fields, t) <==>
                  && ("!" + t in p.fields ==> ForcedFixed(p.fields, "!" + t))
                  && (PlainOnly(p.fields, t) ==> !p.fields[t].Null? && Fixed(p.fields[t]))
      {
        SelfProperty(p, t);
        if t in p.fields {
          FixedIff(p.fields[t]);
        }
      }
      if Fixed(p) {
        SameFields(Patched(p, p).fields, p.fields);
      }
      if Patched(p, p) == p {
        forall k | k in p.fields && Forced(k)
          ensures ForcedFixed(p.fields, k)
        {
          BangBack(k);
          assert Look(Patched(p, p).fields, k[1..]) == Look(p.fields, k[1..]);
        }
        forall k | k in p.fields && PlainOnly(p.fields, k)
          ensures !p.fields[k].Null? && Fixed(p.fields[k])
        {
          assert Look(Patched(p, p).fields, k) == Look(p.fields, k);
        }
      }
    }
  }

  lemma FixedIsStable(p: Json)
    requires Fixed(p)
    ensures Stable(p)
  {
  }

  // A stable patch applied twice is the same as applied once.
  lemma {:induction false} StableTwice(base: Json, p: Json)
    requires Stable(p)
    ensures Patched(Patched(base, p), p) == Patched(base, p)
    decreases p
  {
    if base.Null? || p.Null? || !Compatible(base, p) {
    } else if p.Arr? {
      assert base.elems + p.elems == base.elems;
    } else if p.Obj? {
      var once := Patched(base, p);
      PatchedAt(base, p);
      PatchedAt(once, p);
      forall t
        ensures Look(Patched(once, p).fields, t) == Look(once.fields, t)
      {
        assert Look(once.fields, t) == Property(base.fields, p, p.fields.Keys, t);
        assert Look(Patched(once, p).fields, t) == Property(once.fields, p, p.fields.Keys, t);
        if PlainOnly(p.fields, t) {
          FixedIff(p.fields[t]);
          if t in base.fields {
            FixedIsStable(p.fields[t]);
            StableTwice(base.fields[t], p.fields[t]);
          }
        }
      }
      SameFields(Patched(once, p).fields, once.fields);
    }
  }

  // An unstable patch changes something the second time, on an empty base already.
  lemma UnstableTwice(p: Json) returns (base: Json)
    requires !Stable(p)
    ensures Patched(Patched(base, p), p) != Patched(base, p) && (p.Obj? ==> base == Obj(map[]))
  {
    if p.Arr? {
      base := Arr([]);
      assert [] + p.elems == p.elems && |p.elems + p.elems| == 2 * |p.elems|;
    } else {
      base := Obj(map[]);
      var once := Patched(base, p);
      var t :| t in p.fields && PlainOnly(p.fields, t) && (p.fields[t].Null? || !Fixed(p.fields[t]));
      PatchedAt(base, p);
      PatchedAt(once, p);
      assert Look(base.fields, t) == None;
      assert Property(base.fields, p, p.fields.Keys, t) == Some(p.fields[t]);
      assert Look(once.fields, t) == Some(p.fields[t]);
      FixedIff(p.fields[t]);
      assert Look(Patched(once, p).fields, t) == Merged(Some(p.fields[t]), p.fields[t]);
    }
  }

  /** A patch can be applied again without effect, to whatever base, if and only if it is stable. */
  lemma IdempotentIff(p: Json)
    ensures (forall base :: Patched(Patched(base, p), p) == Patched(base, p)) <==> Stable(p)
  {
    if Stable(p) {
      forall base
        ensures Patched(Patched(base, p), p) == Patched(base, p)
      {
        StableTwice(base, p);
      }
    } else {
      var base := UnstableTwice(p);
    }
  }

  lemma {:induction false} MildIsFixed(p: Json)
    requires Mild(p)
    ensures Fixed(p)
    decreases p
  {
    if p.Obj? {
      forall k | k in p.fields
        ensures !p.fields[k].Null? && Fixed(p.fields[k])
      {
        MildIsFixed(p.fields[k]);
      }
    }
  }

  /** So a patch without arrays, nulls and forced keys can be. */
  lemma Idempotent(base: Json, p: Json)
    requires Mild(p)
    ensures Patched(Patched(base, p), p) == Patched(base, p)
  {
    MildIsFixed(p);
    FixedIsStable(p);
    StableTwice(base, p);
  }

  // The patches that give property "x" the value `j`.
  function Sets(j: Json): Json {
    Obj(map["x" := j])
  }

  /** Unstable are an array that adds, a null and a forced key below the top; stable are a forced key
      at the top and an array that adds nothing. */
  lemma StableInstances()
    ensures !Stable(Sets(Arr([Int(1)]))) && !Stable(Sets(Null)) && !Stable(Sets(Obj(map["!a" := Int(1)])))
    ensures Stable(Obj(map["!a" := Arr([Int(1)])])) && Stable(Sets(Arr([])))
  {
    var inner := map["!a" := Int(1)];
    BangIsForced("x");
    assert "x" in Sets(Null).fields;
    assert PlainOnly(Sets(Arr([Int(1)])).fields, "x") && PlainOnly(Sets(Null).fields, "x");
    assert PlainOnly(Sets(Obj(inner)).fields, "x");
    assert "!a"[1..] == "a" && "!a" in inner && Forced("!a") && !ForcedFixed(inner, "!a");
    assert !Fixed(Obj(inner));
  }

  /** Instances that change the second time: the array grows again, the erased property comes back as
      null, the forced key below the top is first added and then obeyed. */
  lemma NotIdempotent()
    ensures var base, p := Obj(map["a" := Arr([])]), Obj(map["a" := Arr([Int(1)])]);
            Patched(Patched(base, p), p) != Patched(base, p)
    ensures var base, p := Obj(map["a" := Int(1)]), Obj(map["a" := Null]);
            Patched(Patched(base, p), p) != Patched(base, p)
    ensures var p := Sets(Obj(map["!a" := Int(1)]));
            Patched(Patched(Obj(map[]), p), p) != Patched(Obj(map[]), p)
  {
    var base, p := Obj(map["a" := Arr([])]), Obj(map["a" := Arr([Int(1)])]);
    BangIsForced("a");
    assert [] + [Int(1)] == [Int(1)] && [Int(1)] + [Int(1)] == [Int(1), Int(1)];
    var once := Patched(base, p);
    assert Property(base.fields, p, p.fields.Keys, "a") == Some(Arr([Int(1)]));
    assert once.fields["a"] == Arr([Int(1)]);
    assert Property(once.fields, p, p.fields.Keys, "a") == Some(Arr([Int(1), Int(1)]));
    assert Patched(once, p).fields["a"] == Arr([Int(1), Int(1)]);
    var base2, p2 := Obj(map["a" := Int(1)]), Obj(map["a" := Null]);
    var once2 := Patched(base2, p2);
    assert Property(base2.fields, p2, p2.fields.Keys, "a") == None;
    assert "a" !in once2.fields;
    assert Property(once2.fields, p2, p2.fields.Keys, "a") == Some(Null);
    assert "a" in Patched(once2, p2).fields;
    StableInstances();
    var base3 := UnstableTwice(Sets(Obj(map["!a" := Int(1)])));
  }

  // ---- paths

  function Lookup(j: Json, path: seq<string>): Option<Json> {
    if |path| == 0 then Some(j)
    else if j.Obj? && path[0] in j.fields then Lookup(j.fields[path[0]], path[1..])
    else None
  }

  // Following the path in the patch ends at an object without the next property.
  predicate Misses(p: Json, path: seq<string>) {
    |path| > 0 && p.Obj? && (path[0] in p.fields ==> Misses(p.fields[path[0]], path[1..]))
  }

  lemma {:induction false} MissesNothing(p: Json, path: seq<string>)
    requires Misses(p, path)
    ensures Lookup(p, path) == None
    decreases path
  {
    if path[0] in p.fields {
      MissesNothing(p.fields[path[0]], path[1..]);
    }
  }

  /** What a mild patch does not mention stays as it is, and does not appear. */
  lemma {:induction false} UnmentionedStays(base: Json, p: Json, path: seq<string>)
    requires Mild(p) && Misses(p, path)
    ensures Lookup(Patched(base, p), path) == Lookup(base, path)
    decreases path
  {
    if base.Obj? {
      MildFields(base, p);
      var t := path[0];
      if t in p.fields {
        if t in base.fields {
          UnmentionedStays(base.fields[t], p.fields[t], path[1..]);
        } else {
          MissesNothing(p.fields[t], path[1..]);
        }
      }
    }
  }

  // The path leads in the patch to something other than an object, past nothing but objects or nothing in the
  // base, and to nothing there or to a value that can be overwritten.
  predicate Reaches(base: Option<Json>, p: Json, path: seq<string>)
    decreases path
  {
    if |path| == 0 then !p.Obj? && (base.None? || (!base.value.Null? && Compatible(base.value, p)))
    else
      && p.Obj? && path[0] in p.fields
      && (base.None? || base.value.Obj?)
      && Reaches(if base.None? then None else Look(base.value.fields, path[0]), p.fields[path[0]], path[1..])
  }

  lemma {:induction false} NothingInTheWay(p: Json, path: seq<string>)
    requires Lookup(p, path).Some? && !Lookup(p, path).value.Obj?
    ensures Reaches(None, p, path)
    decreases path
  {
    if |path| > 0 {
      NothingInTheWay(p.fields[path[0]], path[1..]);
    }
  }

  /** What a mild patch says at the end of a path is what is there afterwards if the path reaches it, and what
      was there before if it does not. */
  lemma {:induction false} SaidIsThere(base: Json, p: Json, path: seq<string>)
    requires Mild(p) && Lookup(p, path).Some? && !Lookup(p, path).value.Obj?
    ensures Lookup(Patched(base, p), path)
         == if Reaches(Some(base), p, path) then Lookup(p, path) else Lookup(base, path)
    decreases path
  {
    if |path| > 0 && base.Obj? {
      var t := path[0];
      MildFields(base, p);
      if t in base.fields {
        SaidIsThere(base.fields[t], p.fields[t], path[1..]);
      } else {
        NothingInTheWay(p.fields[t], path[1..]);
      }
    }
  }

  /** Any patch appends its array elements to those of the base, in order. */
  lemma ArraysAppend(base: Json, p: Json)
    requires base.Arr? && p.Arr?
    ensures Patched(base, p).Arr? && |Patched(base, p).elems| == |base.elems| + |p.elems|
    ensures forall i | 0 <= i < |base.elems| :: Patched(base, p).elems[i] == base.elems[i]
    ensures forall i | 0 <= i < |p.elems| :: Patched(base, p).elems[|base.elems| + i] == p.elems[i]
  {
  }

  /** What any patch makes of property `t` of an object.  A forced key sets it, and nothing of the base is left
      in it; a plain null erases what is there; a plain value is added, or patched onto what is there. */
  lemma PropertyAfter(base: Json, p: Json, t: string)
    requires base.Obj? && p.Obj?
    ensures Patched(base, p).Obj?
    ensures var after := Look(Patched(base, p).fields, t);
            var was, plain, forced := Look(base.fields, t), Look(p.fields, t), Look(p.fields, "!" + t);
            var counts := plain.Some? && !Forced(t);  // a key that begins with '!' is not a plain one
            && (!counts && forced.None? ==> after == was)
            && (forced.Some? && (!counts || PlainFirst(t)) ==> after == forced)
            && (counts && forced.None? && was.None? ==> after == plain)
            && (counts && forced.None? && was.Some? ==>
                  if plain.value.Null? then after.None? else after == Some(Patched(was.value, plain.value)))
            && (counts && forced.Some? && !PlainFirst(t) ==>
                  if plain.value.Null? then after.None? else after == Some(Patched(forced.value, plain.value)))
  {
    hide Patched;
    PatchedAt(base, p);
    assert Look(Patched(base, p).fields, t) == Property(base.fields, p, p.fields.Keys, t);
  }

  /** A mild patch removes no value and changes none to another kind, but for signed and unsigned
      integers, at any depth. */
  lemma {:induction false} KindsKept(base: Json, p: Json, path: seq<string>)
    requires Mild(p) && Lookup(base, path).Some?
    ensures Lookup(Patched(base, p), path).Some?
    ensures Compatible(Lookup(base, path).value, Lookup(Patched(base, p), path).value)
    decreases path
  {
    if |path| == 0 {
      RootKind(base, p);
    } else if p.Obj? {
      MildFields(base, p);
      if path[0] in p.fields {
        KindsKept(base.fields[path[0]], p.fields[path[0]], path[1..]);
      }
    }
  }
}
