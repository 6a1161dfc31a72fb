/**
 * The abstract users repository: a query factory over the WordPress user store with
 * a strict-argument overlay, an append-only cache of raw query results keyed by the
 * fingerprint of the effective arguments, and a cache of hydrated user models keyed by
 * user ID that is refreshed whenever the record's fingerprint changes.
 */
module Repository {
  import opened Wrappers
  import opened PhpArrays

  /** An md5 digest, as produced by `md5(serialize(...))`. */
  type Hash = string

  /** A `WP_User` record: its `ID` and the rest of its serialisable content. */
  datatype RawUser = RawUser(id: int, data: Args)

  /**
   * What a concrete repository subclass chooses: the methods the abstract class lets it
   * override (`default_query_args`, `default_strict_query_args`, `build_query_args`,
   * `get_required_cap`) and the `$model` class name.
   */
  datatype Overrides = Overrides(
    defaultQueryArgs: Args,
    defaultStrictQueryArgs: Args,
    buildQueryArgs: Args -> Args,
    requiredCap: string,
    model: Option<string>)

  /**
   * The abstract class's own versions of the overridable members: the only default query
   * argument is `count_total => false`, the strict set is empty, the build hook hands its
   * input back, no capability is required and no model class is configured.
   */
  function Base(): (r: Overrides)
    ensures Keys(r.defaultQueryArgs) == {"count_total"}
    ensures Lookup(r.defaultQueryArgs, "count_total") == Some(Bool(false))
    ensures r.defaultStrictQueryArgs == []
    ensures forall a :: r.buildQueryArgs(a) == a
    ensures FalsyString(r.requiredCap) && r.model.None?
  {
    Overrides([("count_total", Bool(false))], [], (a: Args) => a, "", None)
  }

  /**
   * Facts of the PHP runtime the repository relies on: the two fingerprints
   * (`get_args_hash` and `get_object_hash`, both `md5(serialize(...))`), `class_exists`
   * and `is_a`. They are deterministic but otherwise unknown.
   */
  datatype Runtime = Runtime(
    argsHash: Args -> Hash,
    objectHash: RawUser -> Hash,
    classExists: string -> bool,
    isA: (RawUser, string) -> bool)

  /**
   * The WordPress side at the time of a call: `get_user_by`, `user_can`, the rows a
   * prepared `WP_User_Query` returns, and the total a counting `WP_User_Query` reports.
   */
  datatype WordPress = WordPress(
    userBy: (string, Value) -> Option<RawUser>,
    userCan: (int, string) -> bool,
    results: Args -> seq<RawUser>,
    total: Args -> int)

  /** The `InvalidArgumentException`s the lookups throw, one per message template. */
  datatype Error = NoUserWithId(id: int) | NoUserWithField(field: string, value: Value)

  /** An instance of the repository's model class, built by `new $model($user)`. */
  class UserModel {
    const modelClass: string
    const user: RawUser

    constructor (modelClass: string, user: RawUser)
      ensures this.modelClass == modelClass && this.user == user
    {
      this.modelClass := modelClass;
      this.user := user;
    }
  }

  /** A hydration-cache entry: the model object and the record fingerprint it was built from. */
  datatype Entry = Entry(obj: UserModel, hash: Hash)

  /** What `get_model` returns: the record itself, or a model object. */
  datatype Item = Plain(user: RawUser) | Modelled(obj: UserModel)

  /** PHP truthiness of a string: `""` and `"0"` are falsy. */
  predicate FalsyString(s: string)
  {
    s == "" || s == "0"
  }

  /**
   * `_build_wp_query_args`: the caller's arguments over the defaults (`wp_parse_args`),
   * then the `build_query_args` hook, then the strict overlay merged last.
   */
  function EffectiveArgs(sub: Overrides, overlay: Args, args: Args): (r: Args)
    ensures forall k :: k in Keys(overlay) ==> Lookup(r, k) == Lookup(overlay, k)
    ensures forall k :: k !in Keys(overlay) ==>
              Lookup(r, k) == Lookup(sub.buildQueryArgs(Merge(sub.defaultQueryArgs, args)), k)
    ensures Keys(r) == Keys(overlay) + Keys(sub.buildQueryArgs(Merge(sub.defaultQueryArgs, args)))
  {
    Merge(sub.buildQueryArgs(Merge(sub.defaultQueryArgs, args)), overlay)
  }

  /**
   * With the abstract class's own hooks, each effective argument comes from the overlay
   * if the overlay has it, otherwise from the caller, otherwise from the defaults
   * (only `count_total => false`).
   */
  lemma BaseEffectiveArgs(overlay: Args, args: Args, k: string)
    ensures Lookup(EffectiveArgs(Base(), overlay, args), k) ==
      if k in Keys(overlay) then Lookup(overlay, k)
      else if k in Keys(args) then Lookup(args, k)
      else if k == "count_total" then Some(Bool(false))
      else None
  {
  }

  /**
   * The count query is built from `build_query_args($args)` alone. With the abstract class's
   * hooks and the overlay `count_items` leaves (`fields => 'ID'`, `number => 1`,
   * `count_total => true`), the effective arguments would carry those three overrides, while
   * the count query carries whatever the caller passed for them; whenever the caller did not
   * pass `count_total => true`, the count query is not the effective arguments.
   */
  lemma CountQueryBypassesOverlay(overlay: Args, args: Args)
    requires Lookup(overlay, "fields") == Some(Str("ID"))
    requires Lookup(overlay, "number") == Some(Int(1))
    requires Lookup(overlay, "count_total") == Some(Bool(true))
    ensures forall k | k in {"fields", "number", "count_total"} ::
              Lookup(EffectiveArgs(Base(), overlay, args), k) == Lookup(overlay, k) &&
              Lookup(Base().buildQueryArgs(args), k) == Lookup(args, k)
    ensures Lookup(args, "count_total") != Some(Bool(true)) ==>
              Base().buildQueryArgs(args) != EffectiveArgs(Base(), overlay, args)
  {
  }

  class Users {
    /** The subclass's choices and the runtime facts; both fixed for the instance's lifetime. */
    const sub: Overrides
    const rt: Runtime

    /** `$this->strict_query_args`: the overlay that always wins. */
    var strict: Args
    /** `$this->cache['queries']`: raw result lists keyed by the effective arguments' hash. */
    var queries: map<Hash, seq<RawUser>>
    /** `$this->cache['objects']`: hydrated models keyed by user ID. */
    var objects: map<int, Entry>
    /** The arguments `$this->query` was last prepared with; `None` while it is still fresh. */
    var lastQuery: Option<Args>
    /** How many times the list query has been executed against the store. */
    ghost var storeRuns: nat

    /** Every cached model was built from a record with that ID and the stored fingerprint. */
    ghost predicate CacheConsistent(cache: map<int, Entry>)
    {
      forall id | id in cache :: cache[id].obj.user.id == id && cache[id].hash == rt.objectHash(cache[id].obj.user)
    }

    ghost predicate Valid()
      reads this`queries, this`storeRuns, this`objects
    {
      && storeRuns == |queries|
      && CacheConsistent(objects)
    }

    /** `__construct` and `init`: a fresh query object, the default overlay, empty caches. */
    constructor (sub: Overrides, rt: Runtime)
      ensures this.sub == sub && this.rt == rt
      ensures strict == sub.defaultStrictQueryArgs
      ensures queries == map[] && objects == map[] && lastQuery == None
      ensures Valid()
    {
      this.sub := sub;
      this.rt := rt;
      strict := sub.defaultStrictQueryArgs;
      queries := map[];
      objects := map[];
      lastQuery := None;
      storeRuns := 0;
    }

    /** `reset_strict_query_args`: the overlay becomes the subclass's default strict set. */
    method ResetStrictQueryArgs() returns (r: Args)
      modifies this`strict
      ensures strict == sub.defaultStrictQueryArgs && r == strict
    {
      strict := sub.defaultStrictQueryArgs;
      r := strict;
    }

    /** `set_strict_query_arg`: forces one key and leaves every other overlay key as it was. */
    method SetStrictQueryArg(key: string, value: Value)
      modifies this`strict
      ensures Lookup(strict, key) == Some(value)
      ensures forall k :: k != key ==> Lookup(strict, k) == Lookup(old(strict), k)
      ensures Keys(strict) == Keys(old(strict)) + {key}
      ensures key in Keys(old(strict)) ==> KeyOrder(strict) == KeyOrder(old(strict))
      ensures key !in Keys(old(strict)) ==> strict == old(strict) + [(key, value)]
    {
      if key in Keys(strict) {
        AssignExistingKeyOrder(strict, key, value);
      }
      strict := Assign(strict, key, value);
    }

    /** `has_item`: the user exists and either no capability is required or the user has it. */
    predicate HasItem(id: int, wp: WordPress)
      ensures HasItem(id, wp) ==> wp.userBy("id", Int(id)).Some?
      ensures wp.userBy("id", Int(id)).Some? && FalsyString(sub.requiredCap) ==> HasItem(id, wp)
      ensures wp.userBy("id", Int(id)).Some? && !FalsyString(sub.requiredCap) ==>
                (HasItem(id, wp) <==> wp.userCan(id, sub.requiredCap))
    {
      wp.userBy("id", Int(id)).Some? && (FalsyString(sub.requiredCap) || wp.userCan(id, sub.requiredCap))
    }

    /**
     * The guard at the top of `get_model`: no model class, the `WP_User` default, a class
     * that does not exist, or a record that already is a model, all mean "return as is".
     */
    predicate PassesThrough(user: RawUser)
      ensures !PassesThrough(user) ==>
                sub.model.Some? && !FalsyString(sub.model.value) && sub.model.value != "WP_User" &&
                rt.classExists(sub.model.value) && !rt.isA(user, sub.model.value)
      ensures sub == Base() ==> PassesThrough(user)
    {
      || sub.model.None?
      || FalsyString(sub.model.value)
      || sub.model.value == "WP_User"
      || !rt.classExists(sub.model.value)
      || rt.isA(user, sub.model.value)
    }

    /** The hydration cache holds an entry for the record's ID with the record's current fingerprint. */
    predicate CacheHit(cache: map<int, Entry>, user: RawUser)
    {
      user.id in cache && cache[user.id].hash == rt.objectHash(user)
    }

    /**
     * `cached_model_exists`: on a hit, the cached object was built from a record with the
     * same ID and the same fingerprint as the one asked about, so it is never stale.
     */
    predicate CachedModelExists(user: RawUser)
      reads this
      requires Valid()
      ensures CachedModelExists(user) ==>
                user.id in objects && objects[user.id].obj.user.id == user.id &&
                rt.objectHash(objects[user.id].obj.user) == rt.objectHash(user)
    {
      CacheHit(objects, user)
    }

    /**
     * One `get_model` step on a record, from hydration cache `before` to `after`,
     * returning `r`.
     */
    ghost predicate Hydrates(before: map<int, Entry>, user: RawUser, r: Item, after: map<int, Entry>)
    {
      if PassesThrough(user) then r == Plain(user) && after == before
      else
        && r.Modelled?
        && after == before[user.id := Entry(r.obj, rt.objectHash(user))]
        && (CacheHit(before, user) ==> r.obj == before[user.id].obj)
        && (!CacheHit(before, user) ==> r.obj.user == user && r.obj.modelClass == sub.model.value)
    }

    /** Hydrating the same unchanged record twice returns the same object and leaves the cache alone. */
    lemma HydrationIdempotent(c0: map<int, Entry>, user: RawUser, r1: Item, c1: map<int, Entry>, r2: Item, c2: map<int, Entry>)
      requires Hydrates(c0, user, r1, c1) && Hydrates(c1, user, r2, c2)
      ensures r2 == r1 && c2 == c1
    {
    }

    /** A record whose fingerprint differs from the cached one gets a model built from it. */
    lemma HydrationReplacesStale(c0: map<int, Entry>, user: RawUser, r: Item, c1: map<int, Entry>)
      requires !PassesThrough(user) && user.id in c0 && c0[user.id].hash != rt.objectHash(user)
      requires Hydrates(c0, user, r, c1)
      ensures r.Modelled? && r.obj.user == user
      ensures c1[user.id] == Entry(r.obj, rt.objectHash(user))
      ensures forall id | id in c0 && id != user.id :: id in c1 && c1[id] == c0[id]
    {
    }

    /**
     * Whatever path hydration takes, a consistent cache stays consistent and a returned
     * model has the record's ID and fingerprint.
     */
    lemma HydrationMatchesRecord(c0: map<int, Entry>, user: RawUser, r: Item, c1: map<int, Entry>)
      requires CacheConsistent(c0) && Hydrates(c0, user, r, c1)
      ensures CacheConsistent(c1)
      ensures r.Modelled? ==> r.obj.user.id == user.id && rt.objectHash(r.obj.user) == rt.objectHash(user)
    {
    }

    /**
     * `get_model` for a record: passthrough, a cache hit returning the stored object, or a
     * new model stored with the record's fingerprint.
     */
    method GetModel(user: RawUser) returns (r: Item)
      requires Valid()
      modifies this`objects
      ensures Valid()
      ensures Hydrates(old(objects), user, r, objects)
      ensures !PassesThrough(user) && old(CacheHit(objects, user)) ==> objects == old(objects)
      ensures !PassesThrough(user) && !old(CacheHit(objects, user)) ==> fresh(r.obj)
    {
      if PassesThrough(user) {
        return Plain(user);
      }
      if !CachedModelExists(user) {
        var obj := new UserModel(sub.model.value, user);
        objects := objects[user.id := Entry(obj, rt.objectHash(user))];
      } else {
        assert objects[user.id := Entry(objects[user.id].obj, rt.objectHash(user))] == objects;
      }
      r := Modelled(objects[user.id].obj);
    }

    /**
     * `get_model` applied to every row in order: `trace[i]` is the hydration cache before
     * row `i` and `trace[i + 1]` the cache after it.
     */
    ghost predicate HydratesAll(users: seq<RawUser>, items: seq<Item>, trace: seq<map<int, Entry>>)
    {
      && |items| == |users|
      && |trace| == |users| + 1
      && forall i :: 0 <= i < |users| ==> Hydrates(trace[i], users[i], items[i], trace[i + 1])
    }

    /**
     * The query-cache step of `get_items`: on a miss, `$this->query` is prepared with the
     * effective arguments and run once and its rows are stored under their hash; on a hit
     * the store is not touched. Existing entries are never removed or overwritten.
     */
    method CachedResults(eff: Args, wp: WordPress) returns (users: seq<RawUser>)
      requires Valid()
      modifies this`queries, this`lastQuery, this`storeRuns
      ensures Valid()
      ensures var h := rt.argsHash(eff);
              && (h in old(queries) ==>
                    queries == old(queries) && storeRuns == old(storeRuns) && lastQuery == old(lastQuery))
              && (h !in old(queries) ==>
                    queries == old(queries)[h := wp.results(eff)] && storeRuns == old(storeRuns) + 1 &&
                    lastQuery == Some(eff))
              && h in queries && users == queries[h]
      ensures forall h | h in old(queries) :: h in queries && queries[h] == old(queries)[h]
    {
      var hash := rt.argsHash(eff);
      if hash !in queries {
        // prepare_query, query and get_results on $this->query
        lastQuery := Some(eff);
        queries := queries[hash := wp.results(eff)];
        storeRuns := storeRuns + 1;
      }
      users := queries[hash];
    }

    /** The `foreach` of `get_items`: every row replaced by `get_model` of it, in order. */
    method HydrateRows(users: seq<RawUser>) returns (items: seq<Item>, ghost trace: seq<map<int, Entry>>)
      requires Valid()
      modifies this`objects
      ensures Valid()
      ensures HydratesAll(users, items, trace) && trace[0] == old(objects) && trace[|users|] == objects
      ensures forall i :: 0 <= i < |users| && !PassesThrough(users[i]) && !CacheHit(trace[i], users[i]) ==>
                items[i].Modelled? && fresh(items[i].obj)
    {
      items := [];
      trace := [objects];
      var i := 0;
      while i < |users|
        invariant 0 <= i <= |users|
        invariant Valid()
        invariant HydratesAll(users[..i], items, trace) && trace[0] == old(objects) && trace[i] == objects
        invariant forall j :: 0 <= j < i && !PassesThrough(users[j]) && !CacheHit(trace[j], users[j]) ==>
                    items[j].Modelled? && fresh(items[j].obj)
      {
        var m := GetModel(users[i]);
        items := items + [m];
        trace := trace + [objects];
        i := i + 1;
      }
      assert users[..i] == users;
    }

    /**
     * `get_items`: reset the overlay, build the effective arguments, run the store only
     * when their hash is not cached yet, then hydrate every cached row in order.
     */
    method GetItems(args: Args, wp: WordPress) returns (items: seq<Item>, ghost trace: seq<map<int, Entry>>)
      requires Valid()
      modifies this
      ensures Valid()
      ensures strict == sub.defaultStrictQueryArgs
      ensures var eff := EffectiveArgs(sub, sub.defaultStrictQueryArgs, args);
              var h := rt.argsHash(eff);
              && (h in old(queries) ==>
                    queries == old(queries) && storeRuns == old(storeRuns) && lastQuery == old(lastQuery))
              && (h !in old(queries) ==>
                    queries == old(queries)[h := wp.results(eff)] && storeRuns == old(storeRuns) + 1 &&
                    lastQuery == Some(eff))
              && h in queries
              && HydratesAll(queries[h], items, trace) && trace[0] == old(objects) && trace[|items|] == objects
              && (forall i :: 0 <= i < |items| && !PassesThrough(queries[h][i]) && !CacheHit(trace[i], queries[h][i]) ==>
                    items[i].Modelled? && fresh(items[i].obj))
      ensures forall h | h in old(queries) :: h in queries && queries[h] == old(queries)[h]
    {
      var _ := ResetStrictQueryArgs();
      var eff := EffectiveArgs(sub, strict, args);
      var users := CachedResults(eff, wp);
      items, trace := HydrateRows(users);
    }

    /**
     * `count_items`: the overlay is reset and given the three counting overrides, but the
     * count query is built from `build_query_args($args)` only; neither cache nor
     * `$this->query` is read or written.
     */
    method CountItems(args: Args, wp: WordPress) returns (n: int)
      requires Valid()
      modifies this`strict
      ensures Valid()
      ensures Lookup(strict, "fields") == Some(Str("ID"))
      ensures Lookup(strict, "number") == Some(Int(1))
      ensures Lookup(strict, "count_total") == Some(Bool(true))
      ensures forall k :: k !in {"fields", "number", "count_total"} ==> Lookup(strict, k) == Lookup(sub.defaultStrictQueryArgs, k)
      ensures n == wp.total(sub.buildQueryArgs(args))
      ensures queries == old(queries) && objects == old(objects)
      ensures lastQuery == old(lastQuery) && storeRuns == old(storeRuns)
    {
      var _ := ResetStrictQueryArgs();
      SetStrictQueryArg("fields", Str("ID"));
      SetStrictQueryArg("number", Int(1));
      SetStrictQueryArg("count_total", Bool(true));
      n := wp.total(sub.buildQueryArgs(args));
    }

    /** `get_item`: fails exactly when `has_item` is false; otherwise hydrates the user. */
    method GetItem(id: int, wp: WordPress) returns (r: Result<Item, Error>)
      requires Valid()
      modifies this`objects
      ensures Valid()
      ensures r.Failure? <==> !HasItem(id, wp)
      ensures r.Failure? ==> r.error == NoUserWithId(id) && objects == old(objects)
      ensures r.Success? ==>
                (wp.userBy("id", Int(id)).Some? &&
                 Hydrates(old(objects), wp.userBy("id", Int(id)).value, r.value, objects))
    {
      if !HasItem(id, wp) {
        return Failure(NoUserWithId(id));
      }
      var m := GetModel(wp.userBy("id", Int(id)).value);
      r := Success(m);
    }

    /**
     * `get_item_by`: fails when the lookup finds nobody or `has_item` rejects the user found;
     * otherwise hydrates the user looked up again by that user's ID.
     */
    method GetItemBy(field: string, value: Value, wp: WordPress) returns (r: Result<Item, Error>)
      requires Valid()
      modifies this`objects
      ensures Valid()
      ensures r.Failure? <==> wp.userBy(field, value).None? || !HasItem(wp.userBy(field, value).value.id, wp)
      ensures r.Failure? ==> r.error == NoUserWithField(field, value) && objects == old(objects)
      ensures r.Success? ==>
                var id := wp.userBy(field, value).value.id;
                wp.userBy("id", Int(id)).Some? &&
                Hydrates(old(objects), wp.userBy("id", Int(id)).value, r.value, objects)
    {
      var found := wp.userBy(field, value);
      if found.None? || !HasItem(found.value.id, wp) {
        return Failure(NoUserWithField(field, value));
      }
      // get_model($user->ID) looks the user up again by ID
      var m := GetModel(wp.userBy("id", Int(found.value.id)).value);
      r := Success(m);
    }
  }
  /**
   * Two `get_items` calls with the same arguments on one repository: the second is a
   * query-cache hit, so the store runs at most once and both return rows of the same list.
   */
  method GetItemsTwice(repo: Users, args: Args, wp: WordPress) returns (first: seq<Item>, second: seq<Item>)
    requires repo.Valid()
    modifies repo
    ensures repo.Valid()
    ensures repo.storeRuns <= old(repo.storeRuns) + 1
    ensures |first| == |second|
  {
    ghost var t1, t2;
    first, t1 := repo.GetItems(args, wp);
    ghost var runs := repo.storeRuns;
    second, t2 := repo.GetItems(args, wp);
    assert repo.storeRuns == runs;
  }
}
