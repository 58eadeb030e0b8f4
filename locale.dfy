/** The locale module of src/i18n/index.ts: choosing the start-up language from the
    device, switching the language, and the set of listeners told about a switch.
    A listener is known by an identifier; what it does is out of scope, except whether
    calling it throws. */
module Locale {
  import opened Common

  datatype SupportedLocale = En | Hi | Pa

  function Code(l: SupportedLocale): (c: string)
    ensures c in {"en", "hi", "pa"}
    ensures (l == En <==> c == "en") && (l == Hi <==> c == "hi") && (l == Pa <==> c == "pa")
  {
    match l
    case En => "en"
    case Hi => "hi"
    case Pa => "pa"
  }

  /** The whitelist `['en', 'hi', 'pa'].includes(tag)`, as a partial inverse of Code. */
  function FromCode(tag: string): (l: Option<SupportedLocale>)
    ensures l.Some? ==> Code(l.value) == tag
    ensures l.None? ==> tag !in {"en", "hi", "pa"}
  {
    if tag == "en" then Some(En)
    else if tag == "hi" then Some(Hi)
    else if tag == "pa" then Some(Pa)
    else None
  }

  lemma CodeRoundTrip(l: SupportedLocale)
    ensures FromCode(Code(l)) == Some(l)
  {
  }

  /** What the device reports: no usable locale API (missing, or throwing when asked), or
      its preferred locales, each with a language code that may be missing. */
  datatype DeviceLocales = Unavailable | Listed(languageCodes: seq<Option<string>>)

  /** `getSystemLocale`: the language of the first preferred locale when it is one of the
      three supported ones; English in every other case. */
  function SystemLocale(device: DeviceLocales): (l: SupportedLocale)
    ensures device.Listed? && |device.languageCodes| > 0 && device.languageCodes[0].Some?
            && FromCode(device.languageCodes[0].value).Some? ==>
              l == FromCode(device.languageCodes[0].value).value
    ensures l != En ==> device.Listed? && |device.languageCodes| > 0
                        && device.languageCodes[0] == Some(Code(l))
  {
    match device
    case Unavailable => En
    case Listed(codes) =>
      var tag := if |codes| > 0 then OrElse(codes[0], "en") else "en";
      var l := FromCode(tag);
      if l.Some? then l.value else En
  }

  type ListenerId = nat

  /** The listeners `forEach` calls, in order: all of them, up to and including the first
      one that throws, whose exception ends the iteration. */
  function Notified(listeners: seq<ListenerId>, throwing: set<ListenerId>): (called: seq<ListenerId>)
    ensures |called| <= |listeners| && called == listeners[..|called|]
    ensures forall j :: 0 <= j < |called| - 1 ==> called[j] !in throwing
    ensures |called| < |listeners| ==> |called| > 0 && called[|called| - 1] in throwing
  {
    if listeners == [] then []
    else if listeners[0] in throwing then [listeners[0]]
    else [listeners[0]] + Notified(listeners[1..], throwing)
  }

  /** When no listener throws, every listener is told. */
  lemma {:induction false} NotifiedAll(listeners: seq<ListenerId>, throwing: set<ListenerId>)
    requires forall j :: 0 <= j < |listeners| ==> listeners[j] !in throwing
    ensures Notified(listeners, throwing) == listeners
  {
    if listeners != [] {
      var rest := listeners[1..];
      assert forall j :: 0 <= j < |rest| ==> rest[j] == listeners[j + 1];
      NotifiedAll(rest, throwing);
      assert listeners == [listeners[0]] + rest;
    }
  }

  /** The first listener that throws is the last one told. */
  lemma {:induction false} NotifiedStopsAtThrow(listeners: seq<ListenerId>, throwing: set<ListenerId>, k: nat)
    requires k < |listeners| && listeners[k] in throwing
    requires forall j :: 0 <= j < k ==> listeners[j] !in throwing
    ensures Notified(listeners, throwing) == listeners[..k + 1]
  {
    if k > 0 {
      var rest := listeners[1..];
      assert forall j :: 0 <= j < k - 1 ==> rest[j] == listeners[j + 1];
      NotifiedStopsAtThrow(rest, throwing, k - 1);
      assert listeners[..k + 1] == [listeners[0]] + rest[..k];
    }
  }

  /** The listener calls made when `locale` is announced to `called`. */
  function Deliveries(called: seq<ListenerId>, locale: SupportedLocale): (d: seq<(ListenerId, SupportedLocale)>)
    ensures |d| == |called|
    ensures forall j :: 0 <= j < |d| ==> d[j] == (called[j], locale)
  {
    seq(|called|, j requires 0 <= j < |called| => (called[j], locale))
  }

  /** `Set.add`: a listener already present keeps its place. */
  function Added(listeners: seq<ListenerId>, id: ListenerId): (r: seq<ListenerId>)
    ensures id in listeners ==> r == listeners
    ensures id !in listeners ==> r == listeners + [id]
  {
    if id in listeners then listeners else listeners + [id]
  }

  /** `Set.delete`: the others keep their order. */
  function Removed(listeners: seq<ListenerId>, id: ListenerId): (r: seq<ListenerId>)
    ensures forall x :: x in r <==> x in listeners && x != id
    ensures |r| <= |listeners|
  {
    if listeners == [] then []
    else (if listeners[0] == id then [] else [listeners[0]]) + Removed(listeners[1..], id)
  }

  lemma {:induction false} RemovedAbsent(listeners: seq<ListenerId>, id: ListenerId)
    requires id !in listeners
    ensures Removed(listeners, id) == listeners
  {
    if listeners != [] {
      assert listeners == [listeners[0]] + listeners[1..];
      RemovedAbsent(listeners[1..], id);
    }
  }

  lemma {:induction false} RemovedConcat(a: seq<ListenerId>, b: seq<ListenerId>, id: ListenerId)
    ensures Removed(a + b, id) == Removed(a, id) + Removed(b, id)
  {
    if a == [] {
      assert a + b == b;
    } else {
      assert (a + b)[1..] == a[1..] + b;
      RemovedConcat(a[1..], b, id);
    }
  }

  lemma {:induction false} RemovedKeepsDistinct(listeners: seq<ListenerId>, id: ListenerId)
    requires Distinct(listeners)
    ensures Distinct(Removed(listeners, id))
  {
    if listeners != [] {
      RemovedKeepsDistinct(listeners[1..], id);
      var rest := Removed(listeners[1..], id);
      assert listeners[0] !in listeners[1..];
      assert listeners[0] !in rest;
    }
  }

  /** Subscribing twice is subscribing once. */
  lemma SubscribeTwice(listeners: seq<ListenerId>, id: ListenerId)
    ensures Added(Added(listeners, id), id) == Added(listeners, id)
  {
  }

  /** Unsubscribing right after subscribing a new listener restores the set, order included,
      and the set stays free of duplicates throughout. */
  lemma {:induction false} UnsubscribeUndoesSubscribe(listeners: seq<ListenerId>, id: ListenerId)
    requires Distinct(listeners) && id !in listeners
    ensures Distinct(Added(listeners, id))
    ensures Removed(Added(listeners, id), id) == listeners
  {
    RemovedConcat(listeners, [id], id);
    RemovedAbsent(listeners, id);
    assert Removed([id], id) == [];
  }

  /** The module's state: the current i18n locale, the listener set, and the log of the
      listener calls made so far. */
  class LocaleRegistry {
    var locale: SupportedLocale
    /** False while module initialisation has not yet reached the declaration of the
        listener set; reading it before then throws a ReferenceError. */
    var listenersDeclared: bool
    var listeners: seq<ListenerId>
    /** The listeners whose call throws. */
    const throwing: set<ListenerId>
    var calls: seq<(ListenerId, SupportedLocale)>

    predicate Valid()
      reads this
    {
      Distinct(listeners)
    }

    /** Module initialisation: `setLocale(getSystemLocale())` runs before the listener set
        is declared; the resulting ReferenceError is swallowed inside `setLocale`, after
        the locale was already set. */
    constructor Load(device: DeviceLocales, throwing: set<ListenerId>)
      ensures locale == SystemLocale(device)
      ensures listenersDeclared && listeners == [] && calls == []
      ensures this.throwing == throwing && Valid()
    {
      locale := En;
      listenersDeclared := false;
      listeners := [];
      this.throwing := throwing;
      calls := [];
      new;
      SetLocale(SystemLocale(device));
      listenersDeclared := true;
    }

    /** `setLocale`: switch, then tell the listeners in insertion order; an exception from
        a listener (or from the undeclared set) ends the notification and is swallowed. */
    method SetLocale(l: SupportedLocale)
      modifies this`locale, this`calls
      ensures locale == l
      ensures !listenersDeclared ==> calls == old(calls)
      ensures listenersDeclared ==> calls == old(calls) + Deliveries(Notified(listeners, throwing), l)
    {
      locale := l;
      if !listenersDeclared {
        return;
      }
      var i := 0;
      while i < |listeners|
        invariant 0 <= i <= |listeners| && locale == l
        invariant forall j :: 0 <= j < i ==> listeners[j] !in throwing
        invariant calls == old(calls) + Deliveries(listeners[..i], l)
      {
        assert Deliveries(listeners[..i + 1], l) == Deliveries(listeners[..i], l) + [(listeners[i], l)];
        calls := calls + [(listeners[i], l)];
        if listeners[i] in throwing {
          NotifiedStopsAtThrow(listeners, throwing, i);
          return;
        }
        i := i + 1;
      }
      NotifiedAll(listeners, throwing);
      assert listeners[..i] == listeners;
    }

    /** `subscribeToLocale`. */
    method Subscribe(id: ListenerId)
      requires Valid()
      modifies this`listeners
      ensures listeners == Added(old(listeners), id)
      ensures Valid()
    {
      if id !in listeners {
        listeners := listeners + [id];
      }
    }

    /** The function `subscribeToLocale` returns: delete the listener, reporting whether it
        was there. */
    method Unsubscribe(id: ListenerId) returns (removed: bool)
      requires Valid()
      modifies this`listeners
      ensures removed <==> id in old(listeners)
      ensures listeners == Removed(old(listeners), id)
      ensures Valid()
    {
      removed := id in listeners;
      RemovedKeepsDistinct(listeners, id);
      listeners := Removed(listeners, id);
    }
  }
}
