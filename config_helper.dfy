/**
 * src/ConfigHelper.php: normalises the package configuration before the
 * container is built. Missing (or null) root sections become empty arrays,
 * every queue and exchange entry gets an `attributes` array and every
 * consumer entry a `prefetch_count` of 1, unless already set.
 */
module Config {
  import opened Php

  /** The five root sections, in the order `addMainKeys` adds them. */
  const RootKeys: seq<string> := ["connections", "exchanges", "queues", "publishers", "consumers"]

  /**
   * An entry the helpers can extend: null (which autovivifies into an
   * array) or an array. PHP raises an error on any other entry.
   */
  predicate EntryShaped(entry: Value) {
    entry.Null? || entry.Arr?
  }

  /** A section the helpers accept: an array whose entries they can extend. */
  ghost predicate SectionShaped(section: Array<Value>) {
    Wf(section) && forall alias :: alias in section.items ==> EntryShaped(section.items[alias])
  }

  /** The three sections whose entries `addDefaults` extends, in the order it extends them. */
  const EntityRoots: seq<string> := ["queues", "exchanges", "consumers"]

  /** The configuration `addDefaults` accepts: the sections it loops over, when set, are arrays of entries. */
  ghost predicate Shaped(config: Array<Value>) {
    && Wf(config)
    && forall root :: root in EntityRoots && IsSet(config, root) ==>
         config.items[root].Arr? && SectionShaped(config.items[root].a)
  }

  /** A root section after `addMainKeys`: its value when set, otherwise an empty array. */
  function MainSection(config: Array<Value>, root: string): Value {
    if IsSet(config, root) then config.items[root] else Arr(Empty())
  }

  /** `if (!isset($config[$key])) { $config[$key] = []; }` */
  function AddMainKey(config: Array<Value>, key: string): (r: Array<Value>)
    ensures IsSet(r, key) && r.items[key] == MainSection(config, key)
    ensures forall k :: k != key ==>
              (k in r.items <==> k in config.items) && (k in config.items ==> r.items[k] == config.items[k])
    ensures forall k :: k != key ==> MainSection(r, k) == MainSection(config, k)
    ensures config.keys <= r.keys
    ensures Wf(config) ==> Wf(r)
    ensures IsSet(config, key) ==> r == config
  {
    if IsSet(config, key) then config else Set(config, key, Arr(Empty()))
  }

  /** The conditional assignments of `addMainKeys`, one root key after the other. */
  function AddKeys(config: Array<Value>, roots: seq<string>): (r: Array<Value>)
    ensures forall root :: root in roots ==> IsSet(r, root) && r.items[root] == MainSection(config, root)
    ensures forall k :: k !in roots ==>
              (k in r.items <==> k in config.items) && (k in config.items ==> r.items[k] == config.items[k])
    ensures config.keys <= r.keys
    ensures Wf(config) ==> Wf(r)
    ensures (forall root :: root in roots ==> IsSet(config, root)) ==> r == config
    decreases |roots|
  {
    if roots == [] then config
    else
      var r := AddKeys(AddMainKey(config, roots[0]), roots[1..]);
      assert forall root :: root in roots ==> root == roots[0] || root in roots[1..];
      r
  }

  /**
   * `addMainKeys`: each root section is set afterwards, to its old value
   * when it was set and to an empty array otherwise; no other key changes
   * and the existing keys keep their order.
   */
  function AddMainKeys(config: Array<Value>): (r: Array<Value>)
    ensures forall root :: root in RootKeys ==> IsSet(r, root) && r.items[root] == MainSection(config, root)
    ensures forall k :: k !in RootKeys ==>
              (k in r.items <==> k in config.items) && (k in config.items ==> r.items[k] == config.items[k])
    ensures config.keys <= r.keys
    ensures Wf(config) ==> Wf(r)
    ensures (forall root :: root in RootKeys ==> IsSet(config, root)) ==> r == config
  {
    AddKeys(config, RootKeys)
  }

  /** The entry as an array: null reads as the empty array it autovivifies into. */
  function AsArray(entry: Value): Array<Value> {
    if entry.Arr? then entry.a else Empty()
  }

  /**
   * One turn of the loop body for the entry stored under `alias`: an entry
   * whose `key` is set is skipped, any other is written back with `key`
   * assigned the default.
   */
  function FillEntry(current: Array<Value>, alias: string, entry: Value, key: string, default: Value): Array<Value> {
    var properties := AsArray(entry);
    if IsSet(properties, key) then current else Set(current, alias, Arr(Set(properties, key, default)))
  }

  /** The section after the first `done` turns of the loop, which reads each entry from the original section. */
  function FilledUpTo(section: Array<Value>, key: string, default: Value, done: nat): Array<Value>
    requires done <= |section.keys|
    decreases done
  {
    if done == 0 then section
    else
      var alias := section.keys[done - 1];
      FillEntry(FilledUpTo(section, key, default, done - 1), alias, Get(section, alias), key, default)
  }

  /** A section after the whole loop. */
  function Filled(section: Array<Value>, key: string, default: Value): Array<Value> {
    FilledUpTo(section, key, default, |section.keys|)
  }

  /** One entry as the loop leaves it: unchanged when `key` is set, otherwise with `key` assigned the default. */
  function WithKey(entry: Value, key: string, default: Value): (r: Value)
    requires default != Null
    ensures r.Arr? && IsSet(r.a, key)
  {
    if entry.Arr? && IsSet(entry.a, key) then entry else Arr(Set(AsArray(entry), key, default))
  }

  /** The loop changes entries only: after `done` turns the aliases and their order are those of the section. */
  lemma {:induction false} FilledUpToKeys(section: Array<Value>, key: string, default: Value, done: nat)
    requires Wf(section) && done <= |section.keys|
    ensures FilledUpTo(section, key, default, done).keys == section.keys
    ensures FilledUpTo(section, key, default, done).items.Keys == section.items.Keys
    ensures Wf(FilledUpTo(section, key, default, done))
    decreases done
  {
    if done > 0 {
      FilledUpToKeys(section, key, default, done - 1);
    }
  }

  /**
   * After `done` turns the entry of an alias among the first `done` is
   * extended and the entry of any other alias is as it was.
   */
  lemma {:induction false} FilledUpToAt(section: Array<Value>, key: string, default: Value, done: nat, alias: string)
    requires Wf(section) && default != Null && done <= |section.keys| && alias in section.items
    ensures alias in FilledUpTo(section, key, default, done).items
    ensures FilledUpTo(section, key, default, done).items[alias]
              == if alias in section.keys[..done] then WithKey(section.items[alias], key, default) else section.items[alias]
    decreases done
  {
    FilledUpToKeys(section, key, default, done);
    if done > 0 {
      FilledUpToKeys(section, key, default, done - 1);
      FilledUpToAt(section, key, default, done - 1, alias);
      var last := section.keys[done - 1];
      assert section.keys[..done] == section.keys[..done - 1] + [last];
      if alias == last {
        DistinctPrefix(section.keys, done - 1);
      }
    }
  }

  /**
   * The loop extends every entry of a section by itself, whatever the
   * order: no alias is added or removed and the order is kept, every entry
   * ends with its key set, an entry whose key was set is unchanged, and the
   * entry's other keys keep their values (null reading as an empty entry).
   */
  lemma FilledEntries(section: Array<Value>, key: string, default: Value)
    requires Wf(section) && default != Null
    ensures var r := Filled(section, key, default);
            && r.keys == section.keys
            && (forall alias :: alias in r.items <==> alias in section.items)
            && (forall alias :: alias in section.items ==>
                  && r.items[alias] == WithKey(section.items[alias], key, default)
                  && (IsSet(AsArray(section.items[alias]), key) ==> r.items[alias] == section.items[alias])
                  && (!IsSet(AsArray(section.items[alias]), key) ==> r.items[alias].a.items[key] == default)
                  && (forall k :: k != key ==>
                        (k in r.items[alias].a.items <==> k in AsArray(section.items[alias]).items)
                        && (k in AsArray(section.items[alias]).items ==>
                              r.items[alias].a.items[k] == AsArray(section.items[alias]).items[k])))
  {
    FilledUpToKeys(section, key, default, |section.keys|);
    assert section.keys[..|section.keys|] == section.keys;
    forall alias | alias in section.items
      ensures Filled(section, key, default).items[alias] == WithKey(section.items[alias], key, default)
    {
      FilledUpToAt(section, key, default, |section.keys|, alias);
      WithKeyKeeps(section.items[alias], key, default);
    }
  }

  /** An entry whose key was set is unchanged; otherwise the key is added and nothing else changes. */
  lemma WithKeyKeeps(entry: Value, key: string, default: Value)
    requires default != Null
    ensures var r := WithKey(entry, key, default);
            && (IsSet(AsArray(entry), key) ==> r == entry)
            && (!IsSet(AsArray(entry), key) ==> r.a.items[key] == default)
            && (forall k :: k != key ==>
                  (k in r.a.items <==> k in AsArray(entry).items)
                  && (k in AsArray(entry).items ==> r.a.items[k] == AsArray(entry).items[k]))
  {
  }

  /**
   * The `foreach` shared by `addAttributesOnEntities` and
   * `addPrefetchOnConsumers`: iterating over the aliases of the original
   * section, it skips an entry whose `key` is set and writes back the
   * extended entry otherwise.
   */
  method AddKeyOnEntries(section: Array<Value>, key: string, default: Value) returns (r: Array<Value>)
    requires SectionShaped(section) && default != Null
    ensures r == Filled(section, key, default)
  {
    r := section;
    for i := 0 to |section.keys|
      invariant r == FilledUpTo(section, key, default, i)
    {
      var alias := section.keys[i];
      var properties := AsArray(section.items[alias]);
      if IsSet(properties, key) {
        continue;
      }
      properties := Set(properties, key, default);
      r := Set(r, alias, Arr(properties));
    }
  }

  /** `addAttributesOnEntities`: every queue or exchange entry ends with an `attributes` array. */
  method AddAttributesOnEntities(entityConfig: Array<Value>) returns (r: Array<Value>)
    requires SectionShaped(entityConfig)
    ensures r == Filled(entityConfig, "attributes", Arr(Empty()))
  {
    r := AddKeyOnEntries(entityConfig, "attributes", Arr(Empty()));
  }

  /** `addPrefetchOnConsumers`: every consumer entry ends with a `prefetch_count`, 1 unless set. */
  method AddPrefetchOnConsumers(consumers: Array<Value>) returns (r: Array<Value>)
    requires SectionShaped(consumers)
    ensures r == Filled(consumers, "prefetch_count", Int(1))
  {
    r := AddKeyOnEntries(consumers, "prefetch_count", Int(1));
  }

  /** A section the helpers accept stays one after they ran. */
  lemma FilledShaped(section: Array<Value>, key: string, default: Value)
    requires SectionShaped(section) && default != Null
    ensures SectionShaped(Filled(section, key, default))
  {
    FilledEntries(section, key, default);
  }

  /** Extending a section twice gives what extending it once gives. */
  lemma {:induction false} FilledIdempotent(section: Array<Value>, key: string, default: Value)
    requires Wf(section) && default != Null
    ensures Filled(Filled(section, key, default), key, default) == Filled(section, key, default)
  {
    var once := Filled(section, key, default);
    FilledEntries(section, key, default);
    assert Wf(once);
    FilledEntries(once, key, default);
    var twice := Filled(once, key, default);
    forall alias | alias in once.items
      ensures twice.items[alias] == once.items[alias]
    {
      assert IsSet(once.items[alias].a, key);
    }
    assert twice.items == once.items;
  }

  /** The two root sections `addDefaults` leaves as `addMainKeys` made them. */
  const PlainRoots: seq<string> := ["connections", "publishers"]

  /** The entity sections by name. */
  lemma EntityRootNames(root: string)
    requires root in EntityRoots
    ensures root in RootKeys
    ensures root == "queues" || root == "exchanges" || root == "consumers"
  {
  }

  /** The plain sections by name; neither is an entity section. */
  lemma PlainRootNames(root: string)
    requires root in PlainRoots
    ensures root in RootKeys && root !in EntityRoots
    ensures root != "queues" && root != "exchanges" && root != "consumers"
  {
  }

  /** Every root section is an entity section or a plain one. */
  lemma RootNames(root: string)
    requires root in RootKeys
    ensures root in EntityRoots || root in PlainRoots
  {
  }

  /** The entity section names differ, and each is a root section. */
  lemma EntityRootsDiffer()
    ensures "queues" in RootKeys && "exchanges" in RootKeys && "consumers" in RootKeys
    ensures "queues" in EntityRoots && "exchanges" in EntityRoots && "consumers" in EntityRoots
    ensures "queues" != "exchanges" && "queues" != "consumers" && "exchanges" != "consumers"
  {
  }

  /** After `addMainKeys` every entity section is an array of entries when the input was shaped. */
  lemma MainSectionShaped(config: Array<Value>, root: string)
    requires Shaped(config) && root in EntityRoots
    ensures MainSection(config, root).Arr? && SectionShaped(MainSection(config, root).a)
  {
  }

  /** The key `addDefaults` adds to the entries of an entity section, and its default. */
  function DefaultKey(root: string): string {
    if root == "consumers" then "prefetch_count" else "attributes"
  }

  function DefaultValue(root: string): (v: Value)
    ensures v != Null
  {
    if root == "consumers" then Int(1) else Arr(Empty())
  }

  /** The section `root` after its helper: queues and exchanges get `attributes`, consumers `prefetch_count`. */
  function FilledSection(c: Array<Value>, root: string): Value {
    Arr(Filled(AsArray(Get(c, root)), DefaultKey(root), DefaultValue(root)))
  }

  /** `$config[$root] = $this->add...($config[$root])` for one entity section. */
  function FillSection(c: Array<Value>, root: string): (r: Array<Value>)
    ensures r.items == c.items[root := FilledSection(c, root)]
    ensures root in c.items ==> r.keys == c.keys
    ensures Wf(c) ==> Wf(r)
  {
    Set(c, root, FilledSection(c, root))
  }

  /**
   * The configuration `addDefaults` returns: the root keys added, then the
   * queues, exchanges and consumers extended in that order. The existing
   * keys keep their order and nothing but the five root keys is added.
   */
  function Defaulted(config: Array<Value>): (r: Array<Value>)
    requires Shaped(config)
    ensures Wf(r) && config.keys <= r.keys && r.keys == AddMainKeys(config).keys
  {
    EntityRootsDiffer();
    FillSection(FillSection(FillSection(AddMainKeys(config), "queues"), "exchanges"), "consumers")
  }

  /** One assignment leaves every other key of the configuration as it was. */
  lemma FillSectionKeeps(c: Array<Value>, root: string, k: string)
    requires k != root
    ensures k in FillSection(c, root).items <==> k in c.items
    ensures k in c.items ==> FillSection(c, root).items[k] == c.items[k]
  {
  }

  /** A key the three assignments do not write keeps its `addMainKeys` value. */
  lemma DefaultedOutsideEntities(config: Array<Value>, k: string)
    requires Shaped(config)
    requires k != "queues" && k != "exchanges" && k != "consumers"
    ensures (k in Defaulted(config).items <==> k in AddMainKeys(config).items)
    ensures k in AddMainKeys(config).items ==> Defaulted(config).items[k] == AddMainKeys(config).items[k]
  {
    var c := AddMainKeys(config);
    var c1 := FillSection(c, "queues");
    var c2 := FillSection(c1, "exchanges");
    FillSectionKeeps(c, "queues", k);
    FillSectionKeeps(c1, "exchanges", k);
    FillSectionKeeps(c2, "consumers", k);
  }

  /** Connections and publishers are kept when set and are empty arrays otherwise. */
  lemma DefaultedKeepsPlainRoot(config: Array<Value>, root: string)
    requires Shaped(config) && root in PlainRoots
    ensures IsSet(Defaulted(config), root) && Defaulted(config).items[root] == MainSection(config, root)
  {
    PlainRootNames(root);
    DefaultedOutsideEntities(config, root);
  }

  /** An entity section is its old section, or an empty one, with every entry extended by its helper. */
  lemma DefaultedFillsEntity(config: Array<Value>, root: string)
    requires Shaped(config) && root in EntityRoots
    ensures MainSection(config, root).Arr?
    ensures Defaulted(config).items[root] == Arr(Filled(MainSection(config, root).a, DefaultKey(root), DefaultValue(root)))
  {
    EntityRootNames(root);
    EntityRootsDiffer();
    MainSectionShaped(config, root);
    var c := AddMainKeys(config);
    var c1 := FillSection(c, "queues");
    var c2 := FillSection(c1, "exchanges");
    assert Get(c, root) == MainSection(config, root);
    if root == "queues" {
      FillSectionKeeps(c1, "exchanges", root);
      FillSectionKeeps(c2, "consumers", root);
    } else if root == "exchanges" {
      FillSectionKeeps(c, "queues", root);
      FillSectionKeeps(c2, "consumers", root);
    } else {
      FillSectionKeeps(c, "queues", root);
      FillSectionKeeps(c1, "exchanges", root);
    }
  }

  /** Afterwards all five root sections are set. */
  lemma DefaultedSetsRoots(config: Array<Value>)
    requires Shaped(config)
    ensures forall root :: root in RootKeys ==> IsSet(Defaulted(config), root)
  {
    forall root | root in RootKeys
      ensures IsSet(Defaulted(config), root)
    {
      RootNames(root);
      if root in EntityRoots {
        DefaultedFillsEntity(config, root);
      } else {
        DefaultedKeepsPlainRoot(config, root);
      }
    }
  }

  /** No key outside the five root sections is added, removed or changed. */
  lemma DefaultedKeepsOtherKey(config: Array<Value>, k: string)
    requires Shaped(config) && k !in RootKeys
    ensures k in Defaulted(config).items <==> k in config.items
    ensures k in config.items ==> Defaulted(config).items[k] == config.items[k]
  {
    EntityRootsDiffer();
    DefaultedOutsideEntities(config, k);
  }

  /** `$config[$root] = $this->add...($config[$root])`: one entity section through its helper. */
  method AddSectionDefaults(c: Array<Value>, root: string) returns (r: Array<Value>)
    requires root in EntityRoots && IsSet(c, root) && c.items[root].Arr? && SectionShaped(c.items[root].a)
    ensures r == FillSection(c, root)
  {
    var section;
    if root == "consumers" {
      section := AddPrefetchOnConsumers(c.items[root].a);
    } else {
      section := AddAttributesOnEntities(c.items[root].a);
    }
    r := Set(c, root, Arr(section));
  }

  /** `addDefaults`: root keys first, then queues, exchanges and consumers, each section through its helper. */
  method AddDefaults(config: Array<Value>) returns (r: Array<Value>)
    requires Shaped(config)
    ensures r == Defaulted(config)
  {
    EntityRootsDiffer();
    r := AddMainKeys(config);
    ghost var c := r;
    MainSectionShaped(config, "queues");
    r := AddSectionDefaults(r, "queues");
    MainSectionShaped(config, "exchanges");
    FillSectionKeeps(c, "queues", "exchanges");
    ghost var c1 := r;
    r := AddSectionDefaults(r, "exchanges");
    MainSectionShaped(config, "consumers");
    FillSectionKeeps(c, "queues", "consumers");
    FillSectionKeeps(c1, "exchanges", "consumers");
    r := AddSectionDefaults(r, "consumers");
  }

  /** Every entity section `addDefaults` returns is an array of entries. */
  lemma DefaultedSectionShaped(config: Array<Value>, root: string)
    requires Shaped(config) && root in EntityRoots
    ensures Defaulted(config).items[root].Arr? && SectionShaped(Defaulted(config).items[root].a)
  {
    DefaultedFillsEntity(config, root);
    FilledShaped(MainSection(config, root).a, DefaultKey(root), DefaultValue(root));
  }

  /** What `addDefaults` returns is accepted by it again. */
  lemma DefaultedShaped(config: Array<Value>)
    requires Shaped(config)
    ensures Shaped(Defaulted(config))
  {
    var r := Defaulted(config);
    forall root | root in EntityRoots && IsSet(r, root)
      ensures r.items[root].Arr? && SectionShaped(r.items[root].a)
    {
      DefaultedSectionShaped(config, root);
    }
  }

  /** Applied to its own result, `addDefaults` leaves the value under any key as it was. */
  lemma DefaultedAgainAt(config: Array<Value>, k: string)
    requires Shaped(config)
    ensures Shaped(Defaulted(config))
    ensures k in Defaulted(Defaulted(config)).items <==> k in Defaulted(config).items
    ensures k in Defaulted(config).items ==> Defaulted(Defaulted(config)).items[k] == Defaulted(config).items[k]
  {
    var r := Defaulted(config);
    DefaultedShaped(config);
    if k !in RootKeys {
      DefaultedKeepsOtherKey(r, k);
    } else {
      RootNames(k);
      DefaultedSetsRoots(config);
      if k in EntityRoots {
        MainSectionShaped(config, k);
        DefaultedFillsEntity(config, k);
        DefaultedFillsEntity(r, k);
        DefaultedSetsRoots(r);
        FilledIdempotent(MainSection(config, k).a, DefaultKey(k), DefaultValue(k));
      } else {
        DefaultedKeepsPlainRoot(r, k);
      }
    }
  }

  /** `addDefaults` is idempotent: applied to its own result it changes nothing. */
  lemma DefaultedIdempotent(config: Array<Value>)
    requires Shaped(config)
    ensures Shaped(Defaulted(config))
    ensures Defaulted(Defaulted(config)) == Defaulted(config)
  {
    var r := Defaulted(config);
    DefaultedShaped(config);
    DefaultedSetsRoots(config);
    var rr := Defaulted(r);
    forall k
      ensures (k in rr.items <==> k in r.items) && (k in r.items ==> rr.items[k] == r.items[k])
    {
      DefaultedAgainAt(config, k);
    }
    assert AddMainKeys(r) == r;
    SameArray(rr, r);
  }
}
