/**
 * Registering hook subscribers with the WordPress plugin API. A subscriber lists
 * `hook name => parameters` entries; each entry becomes at most one `add_action` or
 * `add_filter` call, and the plugin API's registry is the log of those calls.
 */
module Hooks {
  import opened Wrappers
  import opened PhpArrays

  datatype Kind = Action | Filter

  /**
   * An object passed to `register`: `handle` is its identity, `actions` is the result of
   * `get_actions()` when it implements `Action_Hook_Subscriber` and `filters` the result of
   * `get_filters()` when it implements `Filter_Hook_Subscriber`.
   */
  datatype Subscriber = Subscriber(handle: nat, actions: Option<Args>, filters: Option<Args>)

  /**
   * One `add_action`/`add_filter` call: the hook name, the callback `array($object, method)`
   * and the priority and accepted-argument count when they are passed explicitly.
   */
  datatype Registration = Registration(
    kind: Kind,
    hook: string,
    target: nat,
    callback: Value,
    priority: Option<Value>,
    acceptedArgs: Option<Value>)

  /** `isset($a[$i])`: the integer key is present and its value is not null. */
  predicate Isset(a: seq<(Key, Value)>, i: int)
    ensures Isset(a, i) ==> IntKey(i) in Keys(a)
    ensures Lookup(a, IntKey(i)) == Some(Null) ==> !Isset(a, i)
  {
    Lookup(a, IntKey(i)).Some? && Lookup(a, IntKey(i)).value != Null
  }

  /** `isset($a[$i]) ? $a[$i] : fallback`. */
  function ElementOr(a: seq<(Key, Value)>, i: int, fallback: Value): (r: Value)
    ensures r == fallback || (IntKey(i), r) in a
    ensures r == Null ==> fallback == Null
  {
    if Isset(a, i) then Lookup(a, IntKey(i)).value else fallback
  }

  /** The parameter shapes that register something: a method name, or an array with element 0 set. */
  predicate WellShaped(parameters: Value)
  {
    parameters.Str? || (parameters.Arr? && Isset(parameters.entries, 0))
  }

  /**
   * The case analysis of `register_action`/`register_filter`: a string is the method name with
   * no explicit priority or argument count; an array names the method in element 0, the priority
   * in element 1 (default 10) and the accepted-argument count in element 2 (default 1); any
   * other shape registers nothing.
   */
  function Normalise(kind: Kind, target: nat, name: string, parameters: Value): (r: Option<Registration>)
    ensures r.Some? <==> WellShaped(parameters)
    ensures r.Some? ==> r.value.kind == kind && r.value.hook == name && r.value.target == target
    ensures parameters.Str? ==> r == Some(Registration(kind, name, target, parameters, None, None))
    ensures parameters.Arr? && r.Some? ==>
              Some(r.value.callback) == Lookup(parameters.entries, IntKey(0)) &&
              r.value.callback != Null &&
              r.value.priority == Some(ElementOr(parameters.entries, 1, Int(10))) &&
              r.value.acceptedArgs == Some(ElementOr(parameters.entries, 2, Int(1)))
  {
    match parameters
    case Str(_) => Some(Registration(kind, name, target, parameters, None, None))
    case Arr(a) =>
      if Isset(a, 0) then
        Some(Registration(kind, name, target, Lookup(a, IntKey(0)).value,
                          Some(ElementOr(a, 1, Int(10))), Some(ElementOr(a, 2, Int(1)))))
      else None
    case _ => None
  }

  function AsSeq<T>(o: Option<T>): seq<T>
  {
    if o.Some? then [o.value] else []
  }

  /** The registrations made by looping over `entries` in order. */
  function Registrations(kind: Kind, target: nat, entries: seq<(string, Value)>): (r: seq<Registration>)
    ensures |r| <= |entries|
    decreases |entries|
  {
    if entries == [] then []
    else AsSeq(Normalise(kind, target, entries[0].0, entries[0].1)) + Registrations(kind, target, entries[1..])
  }

  /** Each registration has the loop's kind and object, and its hook name is a key of the entries. */
  lemma {:induction false} RegistrationsShape(kind: Kind, target: nat, entries: seq<(string, Value)>)
    ensures forall reg | reg in Registrations(kind, target, entries) ::
              reg.kind == kind && reg.target == target && reg.hook in Keys(entries)
    decreases |entries|
  {
    if entries != [] {
      RegistrationsShape(kind, target, entries[1..]);
    }
  }

  /** A single entry makes its normalised registration, or nothing. */
  lemma RegistrationsSingle(kind: Kind, target: nat, entry: (string, Value))
    ensures Registrations(kind, target, [entry]) == AsSeq(Normalise(kind, target, entry.0, entry.1))
  {
    assert [entry][1..] == [];
  }

  /** Registering a concatenation of entries is registering each part in turn. */
  lemma {:induction false} RegistrationsAppend(kind: Kind, target: nat, a: seq<(string, Value)>, b: seq<(string, Value)>)
    ensures Registrations(kind, target, a + b) == Registrations(kind, target, a) + Registrations(kind, target, b)
    decreases |a|
  {
    if a == [] {
      assert a + b == b;
    } else {
      assert (a + b)[0] == a[0];
      assert (a + b)[1..] == a[1..] + b;
      RegistrationsAppend(kind, target, a[1..], b);
    }
  }

  /** Taking one more entry of the loop adds that entry's registration, if any, at the end. */
  lemma RegistrationsStep(kind: Kind, target: nat, entries: seq<(string, Value)>, i: nat)
    requires i < |entries|
    ensures Registrations(kind, target, entries[..i + 1]) ==
            Registrations(kind, target, entries[..i]) + AsSeq(Normalise(kind, target, entries[i].0, entries[i].1))
  {
    assert entries[..i + 1] == entries[..i] + [entries[i]];
    RegistrationsAppend(kind, target, entries[..i], [entries[i]]);
    RegistrationsSingle(kind, target, entries[i]);
  }

  /** When every entry is well shaped, entry `i` makes registration `i`: one each, in order. */
  lemma {:induction false} RegistrationsInOrder(kind: Kind, target: nat, entries: seq<(string, Value)>)
    requires forall i :: 0 <= i < |entries| ==> WellShaped(entries[i].1)
    ensures |Registrations(kind, target, entries)| == |entries|
    ensures forall i :: 0 <= i < |entries| ==>
              Some(Registrations(kind, target, entries)[i]) == Normalise(kind, target, entries[i].0, entries[i].1)
    decreases |entries|
  {
    if entries != [] {
      RegistrationsInOrder(kind, target, entries[1..]);
      var rest := Registrations(kind, target, entries[1..]);
      assert Registrations(kind, target, entries) == [Normalise(kind, target, entries[0].0, entries[0].1).value] + rest;
      forall i | 0 < i < |entries|
        ensures Some(Registrations(kind, target, entries)[i]) == Normalise(kind, target, entries[i].0, entries[i].1)
      {
        assert entries[1..][i - 1] == entries[i];
      }
    }
  }

  /** Entries of any other shape register nothing and raise no error. */
  lemma {:induction false} IllShapedRegisterNothing(kind: Kind, target: nat, entries: seq<(string, Value)>)
    requires forall i :: 0 <= i < |entries| ==> !WellShaped(entries[i].1)
    ensures Registrations(kind, target, entries) == []
    decreases |entries|
  {
    if entries != [] {
      IllShapedRegisterNothing(kind, target, entries[1..]);
    }
  }

  /** Filters follow exactly the rules of actions: the same calls, made with `add_filter`. */
  lemma {:induction false} FiltersMirrorActions(target: nat, entries: seq<(string, Value)>)
    ensures |Registrations(Filter, target, entries)| == |Registrations(Action, target, entries)|
    ensures forall i :: 0 <= i < |Registrations(Filter, target, entries)| ==>
              Registrations(Filter, target, entries)[i] == Registrations(Action, target, entries)[i].(kind := Filter)
    decreases |entries|
  {
    if entries != [] {
      FiltersMirrorActions(target, entries[1..]);
    }
  }

  /** The registrations for one interface: those of its list if the object implements it, else none. */
  function Subscribed(kind: Kind, target: nat, list: Option<Args>): seq<Registration>
  {
    if list.Some? then Registrations(kind, target, list.value) else []
  }

  /**
   * Everything `register` makes: the action registrations if the object is an action
   * subscriber, then the filter registrations if it is a filter subscriber.
   */
  function Subscriptions(subscriber: Subscriber): (r: seq<Registration>)
    ensures subscriber.actions.None? && subscriber.filters.None? ==> r == []
  {
    Subscribed(Action, subscriber.handle, subscriber.actions) + Subscribed(Filter, subscriber.handle, subscriber.filters)
  }

  /**
   * Every registration `register` makes targets the object; action registrations exist only
   * for action subscribers and filter registrations only for filter subscribers, each named
   * by a key of the corresponding list.
   */
  lemma SubscriptionsMatchInterfaces(subscriber: Subscriber)
    ensures forall reg | reg in Subscriptions(subscriber) :: reg.target == subscriber.handle
    ensures forall reg | reg in Subscriptions(subscriber) && reg.kind == Action ::
              subscriber.actions.Some? && reg.hook in Keys(subscriber.actions.value)
    ensures forall reg | reg in Subscriptions(subscriber) && reg.kind == Filter ::
              subscriber.filters.Some? && reg.hook in Keys(subscriber.filters.value)
  {
    if subscriber.actions.Some? {
      RegistrationsShape(Action, subscriber.handle, subscriber.actions.value);
    }
    if subscriber.filters.Some? {
      RegistrationsShape(Filter, subscriber.handle, subscriber.filters.value);
    }
  }

  /** The plugin API's hook registry, seen as the log of `add_action`/`add_filter` calls. */
  class HookRegistry {
    var added: seq<Registration>

    constructor ()
      ensures added == []
    {
      added := [];
    }

    /** `add_action` / `add_filter`: appends one call to the log. */
    method Add(reg: Registration)
      modifies this
      ensures added == old(added) + [reg]
    {
      added := added + [reg];
    }
  }

  /** `register_action` (kind `Action`) and `register_filter` (kind `Filter`). */
  method RegisterOne(wp: HookRegistry, kind: Kind, subscriber: Subscriber, name: string, parameters: Value)
    modifies wp
    ensures wp.added == old(wp.added) + AsSeq(Normalise(kind, subscriber.handle, name, parameters))
  {
    if parameters.Str? {
      wp.Add(Registration(kind, name, subscriber.handle, parameters, None, None));
    } else if parameters.Arr? && Isset(parameters.entries, 0) {
      var p := parameters.entries;
      var priority := if Isset(p, 1) then Lookup(p, IntKey(1)).value else Int(10);
      var acceptedArgs := if Isset(p, 2) then Lookup(p, IntKey(2)).value else Int(1);
      wp.Add(Registration(kind, name, subscriber.handle, Lookup(p, IntKey(0)).value, Some(priority), Some(acceptedArgs)));
    }
  }

  /** `register_actions` (kind `Action`) and `register_filters` (kind `Filter`): one entry at a time, in order. */
  method RegisterAll(wp: HookRegistry, kind: Kind, subscriber: Subscriber, entries: Args)
    modifies wp
    ensures wp.added == old(wp.added) + Registrations(kind, subscriber.handle, entries)
  {
    for i := 0 to |entries|
      invariant wp.added == old(wp.added) + Registrations(kind, subscriber.handle, entries[..i])
    {
      RegisterOne(wp, kind, subscriber, entries[i].0, entries[i].1);
      RegistrationsStep(kind, subscriber.handle, entries, i);
    }
    assert entries[..|entries|] == entries;
  }

  /** `register`: actions if the subscriber is an action subscriber, filters if it is a filter subscriber. */
  method Register(wp: HookRegistry, subscriber: Subscriber)
    modifies wp
    ensures wp.added == old(wp.added) + Subscriptions(subscriber)
  {
    ghost var actions := Subscribed(Action, subscriber.handle, subscriber.actions);
    ghost var filters := Subscribed(Filter, subscriber.handle, subscriber.filters);
    if subscriber.actions.Some? {
      RegisterAll(wp, Action, subscriber, subscriber.actions.value);
    }
    assert wp.added == old(wp.added) + actions;
    if subscriber.filters.Some? {
      RegisterAll(wp, Filter, subscriber, subscriber.filters.value);
    }
    assert wp.added == (old(wp.added) + actions) + filters;
    assert (old(wp.added) + actions) + filters == old(wp.added) + (actions + filters);
  }
}
