/** The event-emitting config store (agent/src/config/manager.ts): every update is
    compared key by key with the stored config and each difference is announced.
    A value is represented by its JSON text, which is all the comparison sees. */
module ConfigEvents {
  import opened Basics

  type Text = string

  /** One property; a value without JSON text (`undefined`, a function) has `None`. */
  datatype Entry = Entry(key: Text, text: Option<Text>)

  /** What is emitted on the channel `config:<key>`; the payload's own `value`. */
  datatype Event = Event(key: Text, value: Option<Text>, previous: Option<Text>)

  function KeysOf(config: seq<Entry>): set<Text> { set e | e in config :: e.key }

  /** An object's properties have distinct names. */
  ghost predicate Proper(config: seq<Entry>) {
    forall i, j | 0 <= i < j < |config| :: config[i].key != config[j].key
  }

  /** The JSON text of the object's own property `key`. */
  function Get(config: seq<Entry>, key: Text): Option<Text> {
    if config == [] then None
    else if Last(config).key == key then Last(config).text
    else Get(Init(config), key)
  }

  /** The JSON text of `config[key]`. An inherited property is a function, which has
      none, except for `__proto__`, an object without properties of its own to show. */
  function Lookup(config: seq<Entry>, key: Text): Option<Text> {
    if key == Proto && key !in KeysOf(config) then Some("{}") else Get(config, key)
  }

  /** Names every plain object inherits, so that `key in object` holds of them
      without their being its own properties. */
  const Inherited: set<Text> := {
    "constructor", "hasOwnProperty", "isPrototypeOf", "propertyIsEnumerable", "toLocaleString",
    "toString", "valueOf", "__defineGetter__", "__defineSetter__", "__lookupGetter__", "__lookupSetter__", Proto
  }

  function Changes(config: seq<Entry>, update: seq<Entry>): seq<Event> {
    if update == [] then []
    else
      var e := Last(update);
      Changes(config, Init(update))
      + (if Lookup(config, e.key) != e.text then [Event(e.key, e.text, Lookup(config, e.key))] else [])
  }

  function Deletions(config: seq<Entry>, update: set<Text>): seq<Event> {
    if config == [] then []
    else
      var e := Last(config);
      Deletions(Init(config), update)
      + (if e.key in update || e.key in Inherited then [] else [Event(e.key, None, e.text)])
  }

  /** The events about single keys. */
  function KeyEvents(config: seq<Entry>, update: seq<Entry>): seq<Event> {
    Changes(config, update) + Deletions(config, KeysOf(update))
  }

  /** The closing event goes out on `config:changed`, which is also the channel of a
      key of that name; its payload has neither a value nor a previous one. */
  const Changed := "changed"

  const Closing: Event := Event(Changed, None, None)

  /** Everything emitted on the channels of an update, in order. */
  function EventsOf(config: seq<Entry>, update: seq<Entry>): seq<Event> {
    var events := KeyEvents(config, update);
    events + (if events == [] then [] else [Closing])
  }

  function Named(events: seq<Event>): seq<Text> { seq(|events|, i requires 0 <= i < |events| => events[i].key) }

  class ConfigManager {
    var currentConfig: seq<Entry>

    constructor ()
      ensures currentConfig == []
    {
      currentConfig := [];
    }

    /** Returns everything emitted, in order, and the key list of the closing event. */
    method UpdateConfig(newConfig: seq<Entry>) returns (events: seq<Event>, changedKeys: seq<Text>)
      requires Proper(currentConfig) && Proper(newConfig)
      modifies this
      ensures currentConfig == newConfig
      ensures events == EventsOf(old(currentConfig), newConfig)
      ensures changedKeys == Named(KeyEvents(old(currentConfig), newConfig))
    {
      events := [];
      changedKeys := [];
      for i := 0 to |newConfig|
        invariant events == Changes(currentConfig, newConfig[..i]) && changedKeys == Named(events)
        invariant currentConfig == old(currentConfig)
      {
        assert Init(newConfig[..i + 1]) == newConfig[..i];
        var previous := Lookup(currentConfig, newConfig[i].key);
        if previous != newConfig[i].text {
          changedKeys := changedKeys + [newConfig[i].key];
          events := events + [Event(newConfig[i].key, newConfig[i].text, previous)];
        }
      }
      assert newConfig[..|newConfig|] == newConfig;
      ghost var first := events;
      for i := 0 to |currentConfig|
        invariant currentConfig == old(currentConfig)
        invariant events == first + Deletions(currentConfig[..i], KeysOf(newConfig)) && changedKeys == Named(events)
      {
        assert Init(currentConfig[..i + 1]) == currentConfig[..i];
        var e := currentConfig[i];
        if e.key !in KeysOf(newConfig) && e.key !in Inherited {
          GetIsAt(currentConfig, i);
          changedKeys := changedKeys + [e.key];
          events := events + [Event(e.key, None, Get(currentConfig, e.key))];
        }
      }
      assert currentConfig[..|currentConfig|] == currentConfig;
      currentConfig := newConfig;
      if |changedKeys| > 0 { events := events + [Closing]; }
    }
  }

  lemma {:induction false} GetIsAt(config: seq<Entry>, i: nat)
    requires Proper(config) && i < |config|
    ensures Get(config, config[i].key) == config[i].text
  {
    if i < |config| - 1 { GetIsAt(Init(config), i); }
  }

  lemma {:induction false} GetMissing(config: seq<Entry>, key: Text)
    requires key !in KeysOf(config)
    ensures Get(config, key) == None
  {
    if config != [] {
      assert Last(config) in config;
      GetMissing(Init(config), key);
    }
  }

  // ------------------------------------------------------------------ a listener

  /** What one listener of every `config:<key>` event knows after hearing `events`. */
  function Listen(view: map<Text, Text>, events: seq<Event>): map<Text, Text> {
    if events == [] then view
    else
      var before, e := Listen(view, Init(events)), Last(events);
      if e.value.Some? then before[e.key := e.value.value] else before - {e.key}
  }

  function Seen(view: map<Text, Text>, key: Text): Option<Text> {
    if key in view then Some(view[key]) else None
  }

  /** The events about one key, in order. */
  function About(events: seq<Event>, key: Text): seq<Event> {
    if events == [] then []
    else About(Init(events), key) + (if Last(events).key == key then [Last(events)] else [])
  }

  /** A listener's entry for a key is the last value announced for it. */
  lemma {:induction false} SeenIsLastAbout(view: map<Text, Text>, events: seq<Event>, key: Text)
    ensures Seen(Listen(view, events), key)
         == if About(events, key) == [] then Seen(view, key) else Last(About(events, key)).value
  {
    if events != [] { SeenIsLastAbout(view, Init(events), key); }
  }

  lemma {:induction false} AboutJoins(a: seq<Event>, b: seq<Event>, key: Text)
    ensures About(a + b, key) == About(a, key) + About(b, key)
  {
    if b == [] {
      assert a + b == a;
    } else {
      assert Init(a + b) == a + Init(b) && Last(a + b) == Last(b);
      AboutJoins(a, Init(b), key);
    }
  }

  lemma AboutOne(e: Event, key: Text)
    ensures About([e], key) == if e.key == key then [e] else []
  {
    assert Init([e]) == [];
  }

  lemma KeysGrow(config: seq<Entry>)
    requires Proper(config) && config != []
    ensures KeysOf(config) == KeysOf(Init(config)) + {Last(config).key}
    ensures Last(config).key !in KeysOf(Init(config))
    ensures Proper(Init(config))
  {
    assert config == Init(config) + [Last(config)];
  }

  lemma {:induction false} ChangesAbout(config: seq<Entry>, update: seq<Entry>, key: Text)
    requires Proper(update)
    ensures About(Changes(config, update), key)
         == if key in KeysOf(update) && Lookup(config, key) != Get(update, key)
            then [Event(key, Get(update, key), Lookup(config, key))] else []
  {
    if update != [] {
      var e, rest := Last(update), Init(update);
      ChangesAbout(config, rest, key);
      var was := Lookup(config, e.key);
      AboutJoins(Changes(config, rest), if was != e.text then [Event(e.key, e.text, was)] else [], key);
      AboutOne(Event(e.key, e.text, was), key);
      KeysGrow(update);
    }
  }

  lemma {:induction false} DeletionsAbout(config: seq<Entry>, update: set<Text>, key: Text)
    requires Proper(config)
    ensures About(Deletions(config, update), key)
         == if key in KeysOf(config) && key !in update && key !in Inherited
            then [Event(key, None, Get(config, key))] else []
  {
    if config != [] {
      var e, rest := Last(config), Init(config);
      DeletionsAbout(rest, update, key);
      var piece := if e.key in update || e.key in Inherited then [] else [Event(e.key, None, e.text)];
      AboutJoins(Deletions(rest, update), piece, key);
      AboutOne(Event(e.key, None, e.text), key);
      KeysGrow(config);
    }
  }

  /** What one update announces about a key of its own accord: its new and old value
      if it is new or differs, its deletion if it is gone and not an inherited name. */
  function OwnEvents(config: seq<Entry>, update: seq<Entry>, key: Text): seq<Event> {
    if key in KeysOf(update) then
      if Lookup(config, key) != Get(update, key) then [Event(key, Get(update, key), Lookup(config, key))] else []
    else if key in KeysOf(config) && key !in Inherited then [Event(key, None, Get(config, key))]
    else []
  }

  lemma KeyEventsAbout(config: seq<Entry>, update: seq<Entry>, key: Text)
    requires Proper(config) && Proper(update)
    ensures About(KeyEvents(config, update), key) == OwnEvents(config, update, key)
  {
    ChangesAbout(config, update, key);
    DeletionsAbout(config, KeysOf(update), key);
    AboutJoins(Changes(config, update), Deletions(config, KeysOf(update)), key);
  }

  /** One update announces each key at most once, and a key that stays as it is not
      at all, except on the channel of the key `changed`: there the closing event of
      every update that announces anything comes last. */
  lemma OneEventPerDifference(config: seq<Entry>, update: seq<Entry>, key: Text)
    requires Proper(config) && Proper(update)
    ensures About(EventsOf(config, update), key)
         == OwnEvents(config, update, key)
            + if key == Changed && KeyEvents(config, update) != [] then [Closing] else []
  {
    KeyEventsAbout(config, update, key);
    AboutOne(Closing, key);
    AboutJoins(KeyEvents(config, update), if KeyEvents(config, update) == [] then [] else [Closing], key);
    hide KeyEvents;
  }

  /** Where a key stands among the properties of a config. */
  function Place(config: seq<Entry>, key: Text): (i: nat)
    requires key in KeysOf(config)
    ensures i < |config| && config[i].key == key
  {
    if Last(config).key == key then |config| - 1
    else
      assert config == Init(config) + [Last(config)];
      Place(Init(config), key)
  }

  /** Of two keys announced in one update the first stands before the second: new and
      changed ones as in the update, and after them deleted ones as in the old config. */
  ghost predicate Before(config: seq<Entry>, update: seq<Entry>, first: Text, second: Text) {
    if first in KeysOf(update) then second in KeysOf(update) ==> Place(update, first) < Place(update, second)
    else
      second !in KeysOf(update) && first in KeysOf(config) && second in KeysOf(config)
      && Place(config, first) < Place(config, second)
  }

  /** An update announces its keys in order. */
  lemma AnnouncedInOrder(config: seq<Entry>, update: seq<Entry>, i: nat, j: nat)
    requires Proper(config) && Proper(update) && i < j < |KeyEvents(config, update)|
    ensures Before(config, update, KeyEvents(config, update)[i].key, KeyEvents(config, update)[j].key)
  {
    ChangesInOrder(config, update);
    DeletionsInOrder(config, KeysOf(update));
    var changes := Changes(config, update);
    assert i < |changes| ==> KeyEvents(config, update)[i] in changes;
    hide Changes, Deletions, Place;
  }

  lemma {:induction false} ChangesInOrder(config: seq<Entry>, update: seq<Entry>)
    requires Proper(update)
    ensures var es := Changes(config, update);
      && (forall e <- es :: e.key in KeysOf(update))
      && forall i, j | 0 <= i < j < |es| :: Place(update, es[i].key) < Place(update, es[j].key)
  {
    if update != [] {
      KeysGrow(update);
      ChangesInOrder(config, Init(update));
      var earlier := Changes(config, Init(update));
      assert forall k | 0 <= k < |earlier| :: earlier[k] in earlier;
    }
  }

  lemma {:induction false} DeletionsInOrder(config: seq<Entry>, update: set<Text>)
    requires Proper(config)
    ensures var es := Deletions(config, update);
      && (forall e <- es :: e.key in KeysOf(config) && e.key !in update)
      && forall i, j | 0 <= i < j < |es| :: Place(config, es[i].key) < Place(config, es[j].key)
  {
    if config != [] {
      KeysGrow(config);
      DeletionsInOrder(Init(config), update);
      var earlier := Deletions(Init(config), update);
      assert forall k | 0 <= k < |earlier| :: earlier[k] in earlier;
    }
  }

  lemma {:induction false} AboutAll(events: seq<Event>)
    ensures events == [] <==> forall key :: About(events, key) == []
  {
    if events != [] { assert About(events, Last(events).key) != []; }
  }

  /** An update announces nothing exactly if no key has anything to announce. */
  lemma NothingToAnnounceIff(config: seq<Entry>, update: seq<Entry>)
    requires Proper(config) && Proper(update)
    ensures EventsOf(config, update) == [] <==> forall key :: OwnEvents(config, update, key) == []
  {
    forall key ensures About(KeyEvents(config, update), key) == OwnEvents(config, update, key) {
      KeyEventsAbout(config, update, key);
    }
    AboutAll(KeyEvents(config, update));
    hide KeyEvents, OwnEvents;
  }

  // ---------------------------------------------------------------------- a run

  /** The listener knows each property with a JSON text, and nothing else. */
  ghost predicate UpToDate(view: map<Text, Text>, config: seq<Entry>) {
    forall key :: Seen(view, key) == Get(config, key)
  }

  /** A key whose change an update does not announce: an inherited name is dropped, or
      `__proto__` is set to what it is inherited as. */
  ghost predicate Silent(config: seq<Entry>, update: seq<Entry>, key: Text) {
    if key in KeysOf(update) then key == Proto && key !in KeysOf(config) && Get(update, key) == Some("{}")
    else key in Inherited && Get(config, key).Some?
  }

  /** At each key but `changed`, hearing an update's events brings a listener from
      the old value to the new one, unless the key changes silently. */
  lemma HeardAtKey(view: map<Text, Text>, config: seq<Entry>, update: seq<Entry>, key: Text)
    requires Proper(config) && Proper(update) && Seen(view, key) == Get(config, key) && key != Changed
    ensures Seen(Listen(view, EventsOf(config, update)), key)
         == if Silent(config, update, key) then Get(config, key) else Get(update, key)
  {
    OneEventPerDifference(config, update, key);
    SeenIsLastAbout(view, EventsOf(config, update), key);
    if key !in KeysOf(update) { GetMissing(update, key); }
    if key !in KeysOf(config) { GetMissing(config, key); }
    hide EventsOf, KeyEvents;
  }

  /** The key `changed` is forgotten with every update that announces anything. */
  lemma HeardAtChanged(view: map<Text, Text>, config: seq<Entry>, update: seq<Entry>)
    requires Proper(config) && Proper(update)
    ensures Seen(Listen(view, EventsOf(config, update)), Changed)
         == if EventsOf(config, update) == [] then Seen(view, Changed) else None
  {
    OneEventPerDifference(config, update, Changed);
    SeenIsLastAbout(view, EventsOf(config, update), Changed);
    hide OwnEvents, KeyEvents;
  }

  /** The update announces something and stores a value under `changed`. */
  ghost predicate ShadowsChanged(config: seq<Entry>, update: seq<Entry>) {
    EventsOf(config, update) != [] && Get(update, Changed).Some?
  }

  lemma SilentUpdateKeeps(config: seq<Entry>, update: seq<Entry>)
    requires Proper(config) && Proper(update) && EventsOf(config, update) == []
    ensures Get(config, Changed) == Get(update, Changed)
  {
    NothingToAnnounceIff(config, update);
    assert OwnEvents(config, update, Changed) == [];
    if Changed !in KeysOf(update) { GetMissing(update, Changed); }
    if Changed !in KeysOf(config) { GetMissing(config, Changed); }
    hide EventsOf;
  }

  /** A listener that is up to date stays so exactly when no key changes silently
      and no value of `changed` is overheard by the closing event. */
  lemma UpdateIsHeardIff(view: map<Text, Text>, config: seq<Entry>, update: seq<Entry>)
    requires Proper(config) && Proper(update) && UpToDate(view, config)
    ensures UpToDate(Listen(view, EventsOf(config, update)), update)
      <==> (forall key :: !Silent(config, update, key)) && !ShadowsChanged(config, update)
  {
    var after := Listen(view, EventsOf(config, update));
    forall key | key != Changed
      ensures Seen(after, key) == Get(update, key) <==> !Silent(config, update, key)
    {
      HeardAtKey(view, config, update, key);
      if key !in KeysOf(update) { GetMissing(update, key); }
      if key !in KeysOf(config) { GetMissing(config, key); }
    }
    HeardAtChanged(view, config, update);
    if EventsOf(config, update) == [] { SilentUpdateKeeps(config, update); }
    assert !Silent(config, update, Changed);
    assert Seen(after, Changed) == Get(update, Changed) <==> !ShadowsChanged(config, update);
    hide EventsOf, Listen, Get, Silent, ShadowsChanged;
  }

  /** The config stored after a run of updates, starting empty. */
  function Stored(updates: seq<seq<Entry>>): seq<Entry> {
    if updates == [] then [] else Last(updates)
  }

  /** All events of a run of updates. */
  function Emitted(updates: seq<seq<Entry>>): seq<Event> {
    if updates == [] then [] else Emitted(Init(updates)) + EventsOf(Stored(Init(updates)), Last(updates))
  }

  lemma {:induction false} ListenJoins(view: map<Text, Text>, a: seq<Event>, b: seq<Event>)
    ensures Listen(view, a + b) == Listen(Listen(view, a), b)
  {
    if b == [] {
      assert a + b == a;
    } else {
      assert Init(a + b) == a + Init(b) && Last(a + b) == Last(b);
      ListenJoins(view, a, Init(b));
    }
  }

  /** Over any run, folding the events from nothing rebuilds the stored value of every
      key but `changed` and the inherited names. */
  lemma {:induction false} ReplayRebuildsKey(updates: seq<seq<Entry>>, key: Text)
    requires forall u <- updates :: Proper(u)
    requires key !in Inherited && key != Changed
    ensures Seen(Listen(map[], Emitted(updates)), key) == Get(Stored(updates), key)
  {
    if updates != [] {
      var past, update := Init(updates), Last(updates);
      ReplayRebuildsKey(past, key);
      assert update in updates && Proper(Stored(past));
      ListenJoins(map[], Emitted(past), EventsOf(Stored(past), update));
      HeardAtKey(Listen(map[], Emitted(past)), Stored(past), update, key);
    }
  }

  /** A setting called `changed` is never known to its listener after an update. */
  lemma {:induction false} ChangedIsNeverKept(updates: seq<seq<Entry>>)
    requires forall u <- updates :: Proper(u)
    ensures Seen(Listen(map[], Emitted(updates)), Changed) == None
  {
    if updates != [] {
      var past, update := Init(updates), Last(updates);
      ChangedIsNeverKept(past);
      assert update in updates && Proper(Stored(past));
      ListenJoins(map[], Emitted(past), EventsOf(Stored(past), update));
      HeardAtChanged(Listen(map[], Emitted(past)), Stored(past), update);
    }
  }

  /** A run in which no key changes silently. */
  ghost predicate NothingSilent(updates: seq<seq<Entry>>) {
    updates == [] || (NothingSilent(Init(updates))
                      && forall key :: !Silent(Stored(Init(updates)), Last(updates), key))
  }

  /** A run that never stores a value under `changed`. */
  ghost predicate NeverChanged(updates: seq<seq<Entry>>) {
    forall u <- updates :: Get(u, Changed) == None
  }

  /** A listener has been up to date after every update of the run. */
  ghost predicate AlwaysUpToDate(updates: seq<seq<Entry>>) {
    && UpToDate(Listen(map[], Emitted(updates)), Stored(updates))
    && (updates == [] || AlwaysUpToDate(Init(updates)))
  }

  /** The events alone rebuild the config throughout a run exactly when no update
      changes a key silently or stores a value under `changed`. */
  lemma {:induction false} ReplayRebuildsIff(updates: seq<seq<Entry>>)
    requires forall u <- updates :: Proper(u)
    ensures AlwaysUpToDate(updates) <==> NothingSilent(updates) && NeverChanged(updates)
  {
    if updates != [] {
      var past, update := Init(updates), Last(updates);
      NeverChangedSnoc(updates);
      assert Proper(update) && Proper(Stored(past)) && forall u <- past :: Proper(u);
      assert Emitted(updates) == Emitted(past) + EventsOf(Stored(past), update) && Stored(updates) == update;
      assert NothingSilent(updates) <==> NothingSilent(past) && forall key :: !Silent(Stored(past), update, key);
      assert AlwaysUpToDate(updates) <==> UpToDate(Listen(map[], Emitted(updates)), update) && AlwaysUpToDate(past);
      assert AlwaysUpToDate(past) ==> UpToDate(Listen(map[], Emitted(past)), Stored(past));
      hide *;
      ReplayRebuildsIff(past);
      ListenJoins(map[], Emitted(past), EventsOf(Stored(past), update));
      if AlwaysUpToDate(past) {
        UpdateIsHeardIff(Listen(map[], Emitted(past)), Stored(past), update);
        FirstValueShadows(past, update);
      }
    }
  }

  lemma NeverChangedSnoc(updates: seq<seq<Entry>>)
    requires updates != []
    ensures NeverChanged(updates) <==> NeverChanged(Init(updates)) && Get(Last(updates), Changed) == None
  {
    assert updates == Init(updates) + [Last(updates)];
    hide Get;
  }

  /** Where no value was stored under `changed` before, the first is overheard. */
  lemma FirstValueShadows(past: seq<seq<Entry>>, update: seq<Entry>)
    requires NeverChanged(past) && Proper(Stored(past)) && Proper(update)
    ensures ShadowsChanged(Stored(past), update) <==> Get(update, Changed).Some?
  {
    assert past != [] ==> Last(past) in past;
    assert Get(Stored(past), Changed) == None;
    if Get(update, Changed).Some? {
      NothingToAnnounceIff(Stored(past), update);
      if Changed !in KeysOf(update) { GetMissing(update, Changed); }
      assert OwnEvents(Stored(past), update, Changed) != [];
    }
    hide EventsOf;
  }

  /** The exception: a listener keeps a setting called `constructor` after the
      update that removes it. */
  lemma InheritedNameStays(text: Text)
    ensures var updates := [[Entry("constructor", Some(text))], []];
      && Stored(updates) == []
      && Seen(Listen(map[], Emitted(updates)), "constructor") == Some(text)
  {
    var first, key := [Entry("constructor", Some(text))], "constructor";
    var updates := [first, []];
    assert Init(updates) == [first] && Init([first]) == [];
    assert Get(first, key) == Some(text);
    HeardAtKey(map[], [], first, key);
    HeardAtKey(Listen(map[], EventsOf([], first)), first, [], key);
    ListenJoins(map[], EventsOf([], first), EventsOf(first, []));
    assert Emitted([first]) == EventsOf([], first) by {
      assert Emitted([]) == [];
    }
  }
}
