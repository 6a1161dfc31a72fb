# Users repository and hook registration, modelled in Dafny

This project models two pieces of the Code Atlantic plugin framework.

**The abstract users repository** (`src/Repository/Users.php`) is a query factory over
`WP_User_Query`. It keeps three pieces of state:

- the *strict overlay* (`strict_query_args`): query arguments that always win over the caller's;
- the *query cache* (`cache['queries']`): the raw user rows of each executed query, keyed by
  `md5(serialize(effective arguments))`. Entries are never removed;
- the *hydration cache* (`cache['objects']`): model objects keyed by user `ID`, each stored
  with the fingerprint of the record it was built from. An entry is reused only while the
  record's fingerprint is unchanged.

Around that state sit `get_items`, `count_items`, `has_item`, `get_item` and `get_item_by`.

**Hook registration** (`src/Hooks.php`) turns each `hook name => parameters` entry of a
subscriber into zero or one `add_action`/`add_filter` call.

## How the model is laid out

- `wrappers.dfy`: `Option` and `Result`.
- `php_arrays.dfy`: PHP arrays as ordered dictionaries with unique keys.
  - `Lookup` reads `$a[$k]`; `Assign` is `$a[$k] = $v`; `Merge` is `array_merge` for string keys.
  - Query arguments are kept in insertion order because `serialize`, and so every fingerprint,
    depends on that order.
- `users.dfy`: module `Repository`.
  - The class `Users` holds the overlay (`strict`), the query cache (`queries`), the
    hydration cache (`objects`) and what `$this->query` was last prepared with (`lastQuery`).
  - A ghost counter `storeRuns` counts executions of the list query; `Valid()` ties it to
    the number of cache entries.
  - What a concrete subclass overrides (`default_query_args`, `default_strict_query_args`,
    `build_query_args`, `get_required_cap`, `$model`) is an `Overrides` value fixed at
    construction. `Base()` holds the abstract class's own versions.
  - The fingerprints, `class_exists` and `is_a` are deterministic but unknown functions,
    held in a `Runtime` value. No property relies on the hash being collision-free or
    independent of key order; cache properties speak of equal hash values.
  - WordPress is a `WordPress` value passed to each call: `get_user_by`, `user_can`, the rows
    of a list query and the total of a count query.
  - `new $model($user)` allocates a `UserModel` object, so "the same cached object" means
    object identity.
- `hooks.dfy`: module `Hooks`.
  - A pure `Normalise` does the `is_string`/`is_array`/`isset` case analysis; the `foreach`
    loops append its results to a `HookRegistry`, which stands for the plugin API's hook table.
  - Whether an object implements `Action_Hook_Subscriber` or `Filter_Hook_Subscriber` is
    whether its `actions` or `filters` field is `Some`.

### Behaviour of the code worth knowing

- **Fingerprints.** `get_args_hash` and `get_object_hash` hash `serialize(...)`, which depends
  on insertion order, so two argument sets with the same pairs in a different order get
  different fingerprints. The model therefore keeps arguments ordered.
- **Counting.** `count_items` sets `fields`, `number` and `count_total` in the overlay
  (`src/Repository/Users.php:241-244`). It then builds the count query from
  `build_query_args($args)` alone (:246), so neither the overlay nor `default_query_args`
  reaches the count query. `CountItems` and `CountQueryBypassesOverlay` state this behaviour.
- **Passthrough.** `get_model` returns the record unchanged when `$model` is falsy (`null`,
  `""`, `"0"`), when it is `'WP_User'`, when the class does not exist, or when the record
  already is an instance of it (:305).
- **Errors.** `get_item` and `get_item_by` throw `InvalidArgumentException` with one of two
  message templates; these are the two `Error` cases.
- **Create and update.** `create_item` and `update_item` are declared in
  `src/Interfaces/Repository.php:49-57`, but the abstract class does not implement them.

## Model

| member | source | states |
|---|---|---|
| `PhpArrays.Lookup` | src/Repository/Users.php:290 | reading `$a[$k]` finds a value iff `k` is a key of `a`, and the value found is the one stored with `k` |
| `PhpArrays.Assign` | src/Repository/Users.php:106 | after `$a[$k] = $v`, `k` maps to `v`; every other key keeps its value; an existing key keeps its position; a new key is appended; keys stay unique |
| `PhpArrays.Merge` | src/Repository/Users.php:126-130 | in `array_merge(a, b)`, a key of `b` takes `b`'s value and any other key keeps `a`'s; the keys are the union; keys stay unique |
| `PhpArrays.MergeKeyOrder` | src/Repository/Users.php:126-130 | the keys of `array_merge(a, b)` are `a`'s keys in their order, followed by the keys of `b` that `a` lacked, in `b`'s order |
| `Repository.Base` | src/Repository/Users.php:44-140 | the abstract class's own choices: the only default query argument is `count_total => false`, the strict set is empty, `build_query_args` returns its input, no capability is required and no model class is set |
| `Repository.EffectiveArgs` | src/Repository/Users.php:125-131 | every overlay key maps to the overlay's value, whatever the caller or the build hook supplied; every other key maps to the value `build_query_args(wp_parse_args(args, defaults))` gives it; the keys are exactly the overlay's and the hook output's |
| `Repository.BaseEffectiveArgs` | src/Repository/Users.php:70-140 | with the abstract class's hooks, an effective argument is the overlay's value if the overlay has the key, else the caller's, else `count_total => false`, else absent |
| `Repository.CountQueryBypassesOverlay` | src/Repository/Users.php:238-246 | with the abstract class's hooks and the overlay `count_items` leaves, the effective arguments would carry `fields => 'ID'`, `number => 1`, `count_total => true`, while the count query carries the caller's values for those keys; unless the caller passed `count_total => true`, the count query differs from the effective arguments |
| `Repository.Users.constructor` | src/Repository/Users.php:58-65 | a new repository has the default overlay, two empty caches, an unprepared query and no store runs |
| `Repository.Users.ResetStrictQueryArgs` | src/Repository/Users.php:114-118 | the overlay becomes exactly the default strict set, which is also returned |
| `Repository.Users.SetStrictQueryArg` | src/Repository/Users.php:105-107 | the key is set to the value; every other overlay key is unchanged; the key set grows by at most that key; an existing key keeps its place and a new key is appended at the end |
| `Repository.Users.HasItem` | src/Repository/Users.php:177-181 | true only for an existing user; an existing user passes when the required capability is empty (`""` or `"0"`); otherwise the result is `user_can` |
| `Repository.Users.PassesThrough` | src/Repository/Users.php:304-306 | when `get_model` does not pass the record through, the configured model is a non-falsy class name other than `WP_User`, the class exists and the record is not already an instance of it; with the abstract class's own settings every record passes through |
| `Repository.Users.CachedModelExists` | src/Repository/Users.php:289-291 | on a hit, the cached object was built from a record with the same ID and the same fingerprint as the current record |
| `Repository.Users.HydrationIdempotent` | src/Repository/Users.php:309-318 | hydrating the same record twice returns the identical object the second time and leaves the cache as the first call left it |
| `Repository.Users.HydrationReplacesStale` | src/Repository/Users.php:309-316 | when the cached fingerprint differs from the record's, a model built from the current record replaces the entry; other IDs' entries are untouched |
| `Repository.Users.HydrationMatchesRecord` | src/Repository/Users.php:289-319 | hydration keeps the cache consistent (each entry built from a record with its ID and stored hash); a returned model carries the record's ID and fingerprint |
| `Repository.Users.GetModel` | src/Repository/Users.php:298-319 | passthrough returns the record and leaves the cache alone. Otherwise `objects[ID]` is `(result, hash(user))`: a hit returns the stored object and changes nothing, a miss returns a freshly built model |
| `Repository.Users.CachedResults` | src/Repository/Users.php:204-219 | a hit leaves the cache, the query object and the run counter alone; a miss runs the store once and stores its rows under the hash; no existing entry is removed or overwritten; the rows returned are the cached list |
| `Repository.Users.HydrateRows` | src/Repository/Users.php:221-228 | the result has one item per row, in order, and item `i` is `get_model` of row `i` applied to the cache left by rows `0..i-1` |
| `Repository.Users.GetItems` | src/Repository/Users.php:198-229 | the overlay is reset first, so earlier overrides never leak in. The effective arguments' hash selects the cache entry; the store runs only on a miss; the items are that list hydrated in order; old cache entries persist |
| `Repository.Users.CountItems` | src/Repository/Users.php:236-249 | the overlay ends as the default strict set plus `fields => 'ID'`, `number => 1` and `count_total => true`. The total is the count query's total on `build_query_args($args)` alone. Both caches, `$this->query` and the run counter are untouched |
| `Repository.Users.GetItem` | src/Repository/Users.php:148-154 | fails with the "no user with id" error iff `has_item` is false, leaving the cache alone; otherwise returns the hydration of `get_user_by('id', id)` |
| `Repository.Users.GetItemBy` | src/Repository/Users.php:162-170 | fails iff the lookup finds nobody or `has_item` rejects the found ID, leaving the cache alone; otherwise returns the hydration of the user looked up again by that ID |
| `Repository.GetItemsTwice` | src/Repository/Users.php:204-216 | two `get_items` calls with the same arguments run the store at most once and return lists of the same length |
| `Hooks.Isset` | src/Hooks.php:40-41 | `isset($a[i])` holds only for a present key, and a key holding `null` is not set |
| `Hooks.ElementOr` | src/Hooks.php:41 | `isset($a[i]) ? $a[i] : fallback` is either the fallback or a value stored under `i`, and it is `null` only when the fallback is |
| `Hooks.Normalise` | src/Hooks.php:37-43 | a registration is made iff the parameter is a string or an array with element 0 set. A string gives a method name with no explicit priority or count; an array gives method `p[0]`, priority `p[1]` or 10, count `p[2]` or 1 |
| `Hooks.Registrations` | src/Hooks.php:50-54 | the loop makes at most one registration per entry |
| `Hooks.RegistrationsShape` | src/Hooks.php:50-54 | each registration has the loop's kind and object, and its hook name is a key of the entries |
| `Hooks.RegistrationsAppend` | src/Hooks.php:51-53 | registering the entries `a + b` gives the registrations of `a` followed by those of `b` (iteration order is kept) |
| `Hooks.RegistrationsInOrder` | src/Hooks.php:50-54 | when every entry is well shaped, there is exactly one registration per entry and registration `i` comes from entry `i` |
| `Hooks.IllShapedRegisterNothing` | src/Hooks.php:38-42 | entries whose parameters are neither a string nor an array with element 0 set register nothing |
| `Hooks.FiltersMirrorActions` | src/Hooks.php:63-80 | filters make exactly the registrations actions make, same order and arguments, differing only in kind |
| `Hooks.Subscriptions` | src/Hooks.php:21-28 | an object that implements neither subscriber interface registers nothing |
| `Hooks.SubscriptionsMatchInterfaces` | src/Hooks.php:21-28 | every registration targets the object. Action registrations exist only for action subscribers and filter registrations only for filter subscribers, each named by a key of its list |
| `Hooks.HookRegistry.Add` | src/Hooks.php:39-41 | `add_action`/`add_filter` append exactly one call to the hook registry and keep the earlier ones |
| `Hooks.RegisterOne` | src/Hooks.php:37-43 | `register_action`/`register_filter` append exactly the normalised registration of one entry (or nothing) to the hook registry |
| `Hooks.RegisterAll` | src/Hooks.php:50-54 | `register_actions`/`register_filters` append the registrations of all entries, in iteration order |
| `Hooks.Register` | src/Hooks.php:21-28 | `register` appends the action registrations iff the object is an action subscriber, then the filter registrations iff it is a filter subscriber |

## Left out

- WordPress internals are not modelled; each is an unknown function of its inputs:
  `WP_User_Query` (`prepare_query`, `query`, `get_results`, `get_total`), `get_user_by`,
  `user_can`, and the `add_action`/`add_filter` hook table. Only "a call is appended" is modelled.
- `wp_parse_args` is modelled only as `array_merge($defaults, $args)` on arrays; query-string
  and object arguments are not.
- `array_merge` renumbers integer keys; query arguments are modelled with string keys only.
- `md5`/`serialize` are unknown deterministic functions. Collisions are possible in the model,
  and then a different argument set's cached rows are served, exactly as in the code.
- Query rows are modelled as full `WP_User` records. A query whose `fields` argument makes
  `get_results` return bare IDs is not modelled.
- `get_model` called with an integer is modelled only where the façade calls it. There,
  `has_item` has just confirmed that `get_user_by('id', …)` succeeds. `get_model` on an ID
  with no user (PHP property access on `false`) is not modelled.
- The model class's own behaviour beyond wrapping the record it was built from is not modelled.
- `get_strict_query_args` is a plain read of the overlay. It is modelled as `GetItems`
  passing `strict` to `EffectiveArgs`, not as a member of its own.
- `get_last_query` and the query object created by `init` are plumbing. Only the arguments
  `$this->query` was last prepared with (`lastQuery`) are modelled, to state that
  `count_items` does not touch it.
- `delete_item` depends on the `EMPTY_TRASH_DAYS` constant and on `wp_delete_user`'s side
  effects. It invalidates nothing, so there is no cache behaviour to model.
- `assert_data` is abstract, and `create_item`/`update_item` are not implemented in this class.
- Exception messages (`sprintf`/`__`) are reduced to which of the two templates is used.
- `Repository.GetItemsTwice`: does not claim the two lists hydrate to identical objects. That
  holds only when no user ID appears twice with different content within one cached list.
- User records are immutable values. In PHP the rows in `cache['queries']` are `WP_User` object
  handles, the same handles are returned as passthrough items and wrapped by `new $model($user)`.
  An in-place change to a returned or cached user would change its `get_object_hash` and cause
  re-hydration on the next `get_items`; that aliasing is not captured.
- `build_query_args` is a pure function of its arguments. In PHP it is a method that runs before
  the overlay is read (:130) and could itself call `set_strict_query_arg`; `GetItems`' statement
  that the overlay used is `default_strict_query_args()` holds only for hooks that do not.
- Hook names are the string keys of `get_actions()`/`get_filters()`; integer keys of list-shaped
  arrays are not modelled. A subscriber's identity is a number (`handle`).
- `src/Container.php` (a thin wrapper over Pimple) is not part of this model.
- `src/Configs/WordPress.php` (service wiring that reads globals) is not part of this model.
- `src/Configs/PopupMaker/Extension.php` (empty) is not part of this model.
- `src/Interfaces/*.php` hold declarations only and are not part of this model.
- Concurrency: none; the repository is single-threaded.
