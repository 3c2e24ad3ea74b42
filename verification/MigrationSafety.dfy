/** Stopping the migration anywhere and running it again. */
module MigrationSafety {
  import opened Wrappers
  import opened Documents
  import opened EmbedSettings
  import opened ConfigFile

  /** An uninterrupted run. */
  function Migrated(disk: Disk, netOk: Item -> bool): Disk {
    ApplyAll(disk, DevicePlan(disk, netOk).effects)
  }

  /** A run stopped after its first `k` file operations. */
  function Stopped(disk: Disk, k: nat, netOk: Item -> bool): Disk
    requires k <= |DevicePlan(disk, netOk).effects|
  {
    ApplyAll(disk, DevicePlan(disk, netOk).effects[..k])
  }

  /** Equality of resolved settings that does not look at the `shadowed` flag. */
  predicate SameMeaning(a: Result<Resolved, Problem>, b: Result<Resolved, Problem>) {
    if a.Ok? && b.Ok? then a.value.(shadowed := false) == b.value.(shadowed := false) else a == b
  }

  /** Format 1's model tables hold the models' own keys; the switch and the quantization are elsewhere. */
  ghost predicate FormatOne(disk: Disk) {
    disk.embedding.Toml? && Readable(disk.embedding.doc) ==>
      var slots := SlotsOf(disk.embedding.doc);
      && (slots.modelLocal.Some? ==> "enabled" !in slots.modelLocal.value && "qtype" !in slots.modelLocal.value)
      && (slots.modelRemote.Some? ==> "enabled" !in slots.modelRemote.value)
  }

  function PromotionOf(disk: Disk, netOk: Item -> bool): Promotion
    requires disk.embedding.Toml?
  {
    var slots := SlotsOf(disk.embedding.doc);
    if slots.HasModels() then PromotePlan(disk.root, slots.modelLocal, slots.modelRemote, netOk)
    else Promotion([], true, false)
  }

  /** The run gives this host's models to its workgroup. */
  ghost predicate Promotes(disk: Disk, netOk: Item -> bool) {
    disk.embedding.Toml? && PromotionOf(disk, netOk).moved
  }

  // ----- file operations in sequence -----

  lemma {:induction false} ApplyAllSplit(disk: Disk, a: seq<Effect>, b: seq<Effect>)
    ensures ApplyAll(disk, a + b) == ApplyAll(ApplyAll(disk, a), b)
    decreases |a|
  {
    if a == [] {
      assert a + b == b;
    } else {
      assert (a + b)[1..] == a[1..] + b;
      ApplyAllSplit(Apply(disk, a[0]), a[1..], b);
    }
  }

  // ----- the root -----

  /** A root whose format-1 files have already been read into its `config.toml`. */
  ghost predicate Absorbed(root: Root) {
    && root.Root? && root.config.Toml?
    && (!root.net.Missing? ==> "net" in root.config.doc)
    && (!root.embedding.Missing? ==> "embed" in root.config.doc)
  }

  /** Opening such a root leaves its settings as they are. */
  lemma AbsorbedStays(root: Root, netOk: Item -> bool)
    requires Absorbed(root)
    ensures Opened(root, netOk).config == root.config
  {
    var d := Disk(Missing, Missing, Missing, Missing, Missing, root);
    var effects := RootPlan(root, netOk).effects;
    assert forall e | e in effects :: e in {DropRootNet, DropRootEmbedding};
    DropsKeepConfig(d, effects);
  }

  lemma {:induction false} DropsKeepConfig(d: Disk, effects: seq<Effect>)
    requires d.root.Root? && forall e | e in effects :: e in {DropRootNet, DropRootEmbedding}
    ensures ApplyAll(d, effects).root.config == d.root.config
    decreases |effects|
  {
    if effects != [] {
      assert effects[0] in effects && forall e | e in effects[1..] :: e in effects;
      DropsKeepConfig(Apply(d, effects[0]), effects[1..]);
    }
  }

  /** The first document a root in format 1 is given. */
  function FirstRootDoc(root: Root): Doc
    requires root.Root?
  {
    var withNet := if root.net.Toml? then map["net" := Table(root.net.doc)] else map[];
    if root.embedding.Toml? then withNet["embed" := Table(RootEmbed(root.embedding.doc))] else withNet
  }

  lemma RootMigration(root: Root, netOk: Item -> bool)
    requires root.Root? && root.config.Missing? && RootPlan(root, netOk).ok
    ensures !root.net.NotToml? && !root.embedding.NotToml?
    ensures RootPlan(root, netOk).effects ==
            (if root.net.Missing? && root.embedding.Missing? then [] else [WriteRoot(FirstRootDoc(root))])
            + (if root.net.Missing? then [] else [DropRootNet])
            + (if root.embedding.Missing? then [] else [DropRootEmbedding])
  {
  }

  // ----- the device's own keys -----

  function SlotOf(t: Doc, key: string): Doc {
    Default(SubTable(t, key), map[])
  }

  /** What a device's `[embed]` says that is the device's own: its switches, cache and quantization. */
  function DeviceKeys(embed: Doc): DeviceSettings {
    DeviceSettings(FlagAt(SlotOf(embed, "local"), "enabled"), FlagAt(SlotOf(embed, "remote"), "enabled"),
                   TextAt(embed, "cache_dir"), TextAt(SlotOf(embed, "local"), "qtype"))
  }

  lemma SettingsAreDeviceKeys(doc: Doc, netOk: Item -> bool)
    requires ConfigOk(doc, netOk)
    ensures Settings(DeviceEmbed(Toml(doc))) == DeviceKeys(SlotOf(doc, "embed"))
  {
  }

  /** `more` is `slot` with nothing of the device's own changed, as well typed, and there if `slot` is. */
  ghost predicate Extends(slot: Option<Doc>, more: Option<Doc>, keys: set<string>) {
    && (slot.Some? ==> more.Some?)
    && FlagAt(Default(slot, map[]), "enabled") == FlagAt(Default(more, map[]), "enabled")
    && TextAt(Default(slot, map[]), "qtype") == TextAt(Default(more, map[]), "qtype")
    && (more.Some? && (slot.None? || SlotOk(slot.value, keys)) ==> SlotOk(more.value, keys))
  }

  lemma JoinedExtends(switch: Option<Doc>, model: Option<Doc>, keys: set<string>)
    requires model.Some? ==> "enabled" !in model.value && "qtype" !in model.value && SlotOk(model.value, keys)
    ensures Extends(switch, Joined(switch, model), keys)
  {
    if switch.Some? && model.Some? && SlotOk(switch.value, keys) {
      var both := switch.value + model.value;
      forall key | key in both ensures KeyOk(both, key) {
        if key in model.value {
          assert both[key] == model.value[key] && KeyOk(model.value, key);
        } else {
          assert both[key] == switch.value[key] && KeyOk(switch.value, key);
        }
      }
    }
  }

  lemma ExtendsItself(slot: Option<Doc>, keys: set<string>)
    ensures Extends(slot, slot, keys)
  {
  }

  /** What merging makes of each key. */
  lemma MergedParts(embed: Doc, v1: Doc, l: Option<Doc>, r: Option<Doc>)
    ensures var m := Merged(embed, v1, l, r);
            && (m.Keys <= {"cache_dir", "local", "remote"} <==> embed.Keys <= {"cache_dir", "local", "remote"})
            && ("cache_dir" in m <==> "cache_dir" in embed || "cache_dir" in v1)
            && ("cache_dir" in m ==>
                m["cache_dir"] == if "cache_dir" in embed then embed["cache_dir"] else v1["cache_dir"])
            && ("local" in m <==> "local" in embed || l.Some?)
            && ("local" in m ==> m["local"] == if "local" in embed then embed["local"] else Table(l.value))
            && ("remote" in m <==> "remote" in embed || r.Some?)
            && ("remote" in m ==> m["remote"] == if "remote" in embed then embed["remote"] else Table(r.value))
  {
    assert "local" != "remote" && "local" != "cache_dir" && "remote" != "cache_dir";
  }

  ghost predicate Holds(t: Doc, key: string, slot: Option<Doc>) {
    (key in t <==> slot.Some?) && (slot.Some? ==> t[key] == Table(slot.value))
  }

  lemma SameSlotKeys(a: Doc, b: Doc, slot: Option<Doc>, slot': Option<Doc>, key: string, keys: set<string>)
    requires Extends(slot, slot', keys)
    requires || ((key in a <==> key in b) && (key in a ==> a[key] == b[key]))
             || (Holds(a, key, slot) && Holds(b, key, slot'))
    ensures FlagAt(SlotOf(a, key), "enabled") == FlagAt(SlotOf(b, key), "enabled")
    ensures TextAt(SlotOf(a, key), "qtype") == TextAt(SlotOf(b, key), "qtype")
    ensures (key in a ==> a[key].Table? && SlotOk(a[key].entries, keys)) ==>
        (key in b ==> b[key].Table? && SlotOk(b[key].entries, keys))
  {
  }

  /** Merging extended slots instead says the same for the device. */
  lemma MergedExtended(embed: Doc, v1: Doc, l: Option<Doc>, r: Option<Doc>, l': Option<Doc>, r': Option<Doc>)
    requires Extends(l, l', LOCAL_KEYS) && Extends(r, r', REMOTE_KEYS)
    requires EmbedOk(Merged(embed, v1, l, r))
    ensures EmbedOk(Merged(embed, v1, l', r'))
    ensures DeviceKeys(Merged(embed, v1, l', r')) == DeviceKeys(Merged(embed, v1, l, r))
  {
    hide Merged, SlotOk, Extends, FlagAt, SlotOf;
    var m, m' := Merged(embed, v1, l, r), Merged(embed, v1, l', r');
    MergedParts(embed, v1, l, r);
    MergedParts(embed, v1, l', r');
    SameSlotKeys(m, m', l, l', "local", LOCAL_KEYS);
    SameSlotKeys(m, m', r, r', "remote", REMOTE_KEYS);
  }

  /** Merging them on top of what was merged also does. */
  lemma MergedAgain(embed: Doc, v1: Doc, l: Option<Doc>, r: Option<Doc>, l': Option<Doc>, r': Option<Doc>)
    requires Extends(l, l', LOCAL_KEYS) && Extends(r, r', REMOTE_KEYS)
    requires EmbedOk(Merged(embed, v1, l, r))
    ensures var first := Merged(embed, v1, l, r);
            EmbedOk(Merged(first, v1, l', r')) && DeviceKeys(Merged(first, v1, l', r')) == DeviceKeys(first)
  {
    hide Merged, SlotOk, Extends, FlagAt, SlotOf;
    var m := Merged(embed, v1, l, r);
    var m' := Merged(m, v1, l', r');
    MergedParts(embed, v1, l, r);
    MergedParts(m, v1, l', r');
    SameSlotKeys(m, m', l, l', "local", LOCAL_KEYS);
    SameSlotKeys(m, m', r, r', "remote", REMOTE_KEYS);
  }

  lemma MergedTwice(embed: Doc, v1: Doc, l: Option<Doc>, r: Option<Doc>)
    ensures Merged(Merged(embed, v1, l, r), v1, l, r) == Merged(embed, v1, l, r)
  {
  }

  lemma EmptyEmbedOk()
    ensures EmbedOk(map[])
  {
  }

  lemma FoldedSlot(doc: Doc, v1: Doc, l: Option<Doc>, r: Option<Doc>)
    requires !NotATable(doc, "embed")
    ensures var folded := FoldEmbedding(doc, v1, l, r);
            && SlotOf(folded, "embed") == Merged(SlotOf(doc, "embed"), v1, l, r)
            && !NotATable(folded, "embed")
            && (forall key | key != "embed" ::
              (key in folded <==> key in doc) && (key in doc ==> folded[key] == doc[key]))
            && ("embed" !in folded ==> SlotOf(folded, "embed") == map[])
  {
  }

  /** The same for the whole document. */
  lemma FoldedExtended(doc: Doc, v1: Doc, l: Option<Doc>, r: Option<Doc>, l': Option<Doc>, r': Option<Doc>,
                       netOk: Item -> bool)
    requires Extends(l, l', LOCAL_KEYS) && Extends(r, r', REMOTE_KEYS)
    requires !NotATable(doc, "embed") && ConfigOk(FoldEmbedding(doc, v1, l, r), netOk)
    ensures var first := FoldEmbedding(doc, v1, l, r);
            && !NotATable(first, "embed")
            && ConfigOk(FoldEmbedding(doc, v1, l', r'), netOk) && ConfigOk(FoldEmbedding(first, v1, l', r'), netOk)
            && DeviceKeys(SlotOf(FoldEmbedding(doc, v1, l', r'), "embed")) == DeviceKeys(SlotOf(first, "embed"))
            && DeviceKeys(SlotOf(FoldEmbedding(first, v1, l', r'), "embed")) == DeviceKeys(SlotOf(first, "embed"))
            && (l' == l && r' == r ==> FoldEmbedding(first, v1, l', r') == first)
  {
    var embed := SlotOf(doc, "embed");
    var merged := Merged(embed, v1, l, r);
    hide Merged, EmbedOk, DeviceKeys, Extends;
    FoldedSlot(doc, v1, l, r);
    FoldedSlot(doc, v1, l', r');
    var first := FoldEmbedding(doc, v1, l, r);
    FoldedSlot(first, v1, l', r');
    assert EmbedOk(merged) by {
      if merged == map[] {
        EmptyEmbedOk();
      }
    }
    MergedExtended(embed, v1, l, r, l', r');
    MergedAgain(embed, v1, l, r, l', r');
    if l' == l && r' == r {
      MergedTwice(embed, v1, l, r);
      assert "embed" in first ==> first["embed" := Table(merged)] == first;
    }
  }

  // ----- the shape of a run -----

  ghost predicate OnRoot(e: Effect) {
    e.WriteRoot? || e.DropRootNet? || e.DropRootEmbedding?
  }

  ghost predicate Retires(e: Effect) {
    e.RetireNet? || e.RetireEmbedding?
  }

  function RootAfter(root: Root, effects: seq<Effect>): (r: Root)
    ensures r.Root? == root.Root?
  {
    ApplyAll(Disk(Missing, Missing, Missing, Missing, Missing, root), effects).root
  }

  /** Operations on the root touch nothing else, and go by nothing else. */
  lemma {:induction false} RootEffects(disk: Disk, other: Disk, effects: seq<Effect>)
    requires forall i | 0 <= i < |effects| :: OnRoot(effects[i])
    requires other.root == disk.root
    ensures ApplyAll(disk, effects) == disk.(root := ApplyAll(other, effects).root)
    decreases |effects|
  {
    if effects != [] {
      RootEffects(Apply(disk, effects[0]), Apply(other, effects[0]), effects[1..]);
    }
  }

  /** Retiring old files touches neither `config.toml` nor the root. */
  lemma {:induction false} RetireEffects(disk: Disk, effects: seq<Effect>)
    requires forall i | 0 <= i < |effects| :: Retires(effects[i])
    ensures var r := ApplyAll(disk, effects);
            && r.config == disk.config && r.root == disk.root
            && (r.net == disk.net || r.net == Missing) && (r.embedding == disk.embedding || r.embedding == Missing)
    decreases |effects|
  {
    if effects != [] {
      RetireEffects(Apply(disk, effects[0]), effects[1..]);
    }
  }

  function Retirements(disk: Disk): seq<Effect> {
    (if disk.net.Missing? then [] else [RetireNet]) + (if disk.embedding.Missing? then [] else [RetireEmbedding])
  }

  /** The document the device gets, with its own models in it or not. */
  function Folded(disk: Disk, moved: bool): Doc
    requires !NotATable(FoldNet(DocOf(disk.config), disk.net), "embed")
  {
    var doc := FoldNet(DocOf(disk.config), disk.net);
    if !disk.embedding.Toml? then doc
    else
      var slots := SlotsOf(disk.embedding.doc);
      FoldEmbedding(doc, disk.embedding.doc,
                    if moved then slots.local else Joined(slots.local, slots.modelLocal),
                    if moved then slots.remote else Joined(slots.remote, slots.modelRemote))
  }

  /** What the run does to the root, before it touches anything of the device's. */
  function RootPart(disk: Disk, netOk: Item -> bool): seq<Effect> {
    if disk.embedding.Toml? then PromotionOf(disk, netOk).effects else []
  }

  ghost predicate Pending(disk: Disk) {
    !(disk.net.Missing? && disk.embedding.Missing?)
  }

  lemma EmbedIsATable(disk: Disk, netOk: Item -> bool)
    requires DevicePlan(disk, netOk).ok && Pending(disk)
    ensures !NotATable(FoldNet(DocOf(disk.config), disk.net), "embed")
  {
  }

  lemma PlanShape(disk: Disk, netOk: Item -> bool)
    requires DevicePlan(disk, netOk).ok && Pending(disk)
    ensures !NotATable(FoldNet(DocOf(disk.config), disk.net), "embed")
    ensures var doc := Folded(disk, Promotes(disk, netOk));
            ConfigOk(doc, netOk)
                && DevicePlan(disk, netOk).effects == RootPart(disk, netOk) + ([WriteConfig(doc)] + Retirements(disk))
    ensures disk.embedding.Toml? ==> Readable(disk.embedding.doc) && PromotionOf(disk, netOk).ok
    ensures !disk.net.NotToml? && !disk.embedding.NotToml? && !disk.config.NotToml?
    ensures forall i | 0 <= i < |RootPart(disk, netOk)| :: OnRoot(RootPart(disk, netOk)[i])
  {
    hide ConfigOk, FoldEmbedding, FoldNet, Joined, NotATable, RootEmbed, MaybePut;
    EmbedIsATable(disk, netOk);
    var doc := Folded(disk, Promotes(disk, netOk));
    assert Finish(disk, RootPart(disk, netOk), doc, netOk).effects ==
        RootPart(disk, netOk) + ([WriteConfig(doc)] + Retirements(disk));
  }

  /** Read back, a plan that has no promotion to do is this. */
  lemma PlanWithoutPromotion(disk: Disk, netOk: Item -> bool)
    requires Pending(disk) && !disk.net.NotToml? && !disk.embedding.NotToml? && !disk.config.NotToml?
    requires !NotATable(FoldNet(DocOf(disk.config), disk.net), "embed")
    requires disk.embedding.Toml? ==>
        Readable(disk.embedding.doc) && PromotionOf(disk, netOk) == Promotion([], true, false)
    requires ConfigOk(Folded(disk, false), netOk)
    ensures DevicePlan(disk, netOk).ok
    ensures Migrated(disk, netOk).config == Toml(Folded(disk, false)) && Migrated(disk, netOk).root == disk.root
  {
    hide ConfigOk, FoldEmbedding, FoldNet, Joined, NotATable, PromotePlan;
    var doc := Folded(disk, false);
    var effects := DevicePlan(disk, netOk).effects;
    assert effects == [WriteConfig(doc)] + Retirements(disk);
    assert effects[1..] == Retirements(disk);
    RetireEffects(Apply(disk, effects[0]), effects[1..]);
  }

  // ----- promotions -----

  /** The models of a format-1 host, as a workgroup's `[embed]`. */
  function ModelTables(slots: Slots): Doc {
    MaybePut(MaybePut(map[], "local", slots.modelLocal), "remote", slots.modelRemote)
  }

  lemma ModelTablesAreOk(slots: Slots)
    requires EmbedOk(ModelTables(slots))
    ensures slots.modelLocal.Some? ==> SlotOk(slots.modelLocal.value, LOCAL_KEYS)
    ensures slots.modelRemote.Some? ==> SlotOk(slots.modelRemote.value, REMOTE_KEYS)
  {
    var t := ModelTables(slots);
    assert slots.modelLocal.Some? ==> "local" in t && t["local"] == Table(slots.modelLocal.value);
    assert slots.modelRemote.Some? ==> "remote" in t && t["remote"] == Table(slots.modelRemote.value);
  }

  /** The document a promotion writes into the root. */
  function Promoted(root: Root, slots: Slots): Doc
    requires root.Root?
  {
    FirstRootDoc(root)["embed" := Table(ModelTables(slots))]
  }

  lemma FirstRootDocKeys(root: Root)
    requires root.Root?
    ensures "net" in FirstRootDoc(root) <==> root.net.Toml?
    ensures "embed" in FirstRootDoc(root) <==> root.embedding.Toml?
  {
    assert "net" != "embed";
  }

  /** The operations of a promotion, case by case. */
  lemma PromotionShape(root: Root, slots: Slots, netOk: Item -> bool)
    requires root.Root? && root.config.Missing?
    ensures var p := PromotePlan(root, slots.modelLocal, slots.modelRemote, netOk);
            p.ok && RootPlan(root, netOk).ok ==>
              && !root.net.NotToml? && !root.embedding.NotToml?
              && (p.moved <==> root.embedding.Missing?)
              && (p.moved ==> ConfigOk(Promoted(root, slots), netOk))
              && p.effects ==
                   if root.net.Missing? && root.embedding.Missing? then [WriteRoot(Promoted(root, slots))]
                   else if root.embedding.Missing?
                   then [WriteRoot(FirstRootDoc(root)), DropRootNet, WriteRoot(Promoted(root, slots))]
                   else if root.net.Missing? then [WriteRoot(FirstRootDoc(root)), DropRootEmbedding]
                   else [WriteRoot(FirstRootDoc(root)), DropRootNet, DropRootEmbedding]
    ensures !RootPlan(root, netOk).ok ==>
        PromotePlan(root, slots.modelLocal, slots.modelRemote, netOk) == Promotion([], true, false)
  {
    if RootPlan(root, netOk).ok {
      RootMigration(root, netOk);
      FirstRootDocKeys(root);
      hide ConfigOk, RootPlan, FirstRootDoc, MaybePut;
      var d := Disk(Missing, Missing, Missing, Missing, Missing, root);
      var effects := RootPlan(root, netOk).effects;
      if !(root.net.Missing? && root.embedding.Missing?) {
        assert effects[0] == WriteRoot(FirstRootDoc(root));
        assert forall e | e in effects[1..] :: e in {DropRootNet, DropRootEmbedding};
        DropsKeepConfig(Apply(d, effects[0]), effects[1..]);
        assert ApplyAll(d, effects).root.config == Toml(FirstRootDoc(root));
      }
    }
  }

  /** The root after each of the operations a promotion can consist of. */
  lemma RootSteps(root: Root, x: Doc, y: Doc)
    requires root.Root?
    ensures RootAfter(root, [WriteRoot(x)]) == root.(config := Toml(x))
    ensures RootAfter(root, [WriteRoot(x), DropRootNet]) == root.(config := Toml(x), net := Missing)
    ensures RootAfter(root, [WriteRoot(x), DropRootEmbedding]) == root.(config := Toml(x), embedding := Missing)
    ensures RootAfter(root, [WriteRoot(x), DropRootNet, DropRootEmbedding]) ==
        root.(config := Toml(x), net := Missing, embedding := Missing)
    ensures RootAfter(root, [WriteRoot(x), DropRootNet, WriteRoot(y)]) == root.(config := Toml(y), net := Missing)
  {
    var d := Disk(Missing, Missing, Missing, Missing, Missing, root);
    ApplyThree(d, WriteRoot(x), DropRootNet, DropRootEmbedding);
    ApplyThree(d, WriteRoot(x), DropRootNet, WriteRoot(y));
    ApplyThree(d, WriteRoot(x), DropRootEmbedding, WriteRoot(y));
  }

  lemma ApplyThree(d: Disk, a: Effect, b: Effect, c: Effect)
    ensures ApplyAll(d, [a]) == Apply(d, a)
    ensures ApplyAll(d, [a, b]) == Apply(Apply(d, a), b)
    ensures ApplyAll(d, [a, b, c]) == Apply(Apply(Apply(d, a), b), c)
  {
    hide Apply;
    assert [a][1..] == [] && [a, b][1..] == [b] && [a, b, c][1..] == [b, c];
    assert [b][1..] == [] && [b, c][1..] == [c] && [c][1..] == [];
    assert ApplyAll(Apply(d, a), [b]) == Apply(Apply(d, a), b);
    assert ApplyAll(Apply(Apply(d, a), b), [c]) == Apply(Apply(Apply(d, a), b), c);
    assert ApplyAll(Apply(d, a), [b, c]) == ApplyAll(Apply(Apply(d, a), b), [c]);
  }

  /** A root some way into a promotion: its settings are the first document, until the models are in. */
  lemma PromotionPrefix(root: Root, slots: Slots, netOk: Item -> bool, j: nat)
    requires root.Root? && root.config.Missing? && RootPlan(root, netOk).ok
    requires PromotePlan(root, slots.modelLocal, slots.modelRemote, netOk).ok
    requires 1 <= j <= |PromotePlan(root, slots.modelLocal, slots.modelRemote, netOk).effects|
    ensures var p := PromotePlan(root, slots.modelLocal, slots.modelRemote, netOk);
            var r := RootAfter(root, p.effects[..j]);
            && Absorbed(r)
            && r.config == Toml(if p.moved && j == |p.effects| then Promoted(root, slots) else FirstRootDoc(root))
            && (p.moved && j < |p.effects| ==> |p.effects| == 3 && !root.net.Missing?)
            && (p.moved && !root.net.Missing? ==> |p.effects| == 3)
  {
    PromotionShape(root, slots, netOk);
    FirstRootDocKeys(root);
    PromotedKeys(root, slots);
    hide RootPlan, PromotePlan, FirstRootDoc, MaybePut, ConfigOk, RootAfter, Promoted;
    var x, y := FirstRootDoc(root), Promoted(root, slots);
    RootSteps(root, x, y);
    RootSteps(root, y, x);
    var e := PromotePlan(root, slots.modelLocal, slots.modelRemote, netOk).effects;
    assert j == 1 ==> e[..j] == [e[0]];
    assert j == 2 ==> e[..j] == [e[0], e[1]];
    assert j == 3 ==> e[..j] == [e[0], e[1], e[2]];
  }

  lemma PromotedKeys(root: Root, slots: Slots)
    requires root.Root?
    ensures "embed" in Promoted(root, slots)
    ensures "net" in FirstRootDoc(root) ==> "net" in Promoted(root, slots)
  {
    assert "net" != "embed";
  }

  // ----- the rerun -----

  /** The files tell it beforehand: models here, and a root not in format 2 with no models and no broken `net.toml`. */
  ghost predicate OffersModels(disk: Disk, netOk: Item -> bool) {
    && disk.embedding.Toml? && SlotsOf(disk.embedding.doc).HasModels()
    && disk.root.Root? && disk.root.config.Missing? && disk.root.embedding.Missing?
    && (disk.root.net.Missing? || (disk.root.net.Toml? && netOk(Table(disk.root.net.doc))))
  }

  /** A run that ends well gives models to the workgroup exactly when its files offer them. */
  lemma PromotesExactlyWhatIsOffered(disk: Disk, netOk: Item -> bool)
    requires DevicePlan(disk, netOk).ok
    ensures Promotes(disk, netOk) <==> OffersModels(disk, netOk)
  {
    if Pending(disk) {
      hide FoldEmbedding, FoldNet, Joined, EmbedOk, MaybePut, SlotsOf;
      PlanShape(disk, netOk);
      if disk.embedding.Toml? && disk.root.Root? && disk.root.config.Missing? {
        FirstRootDocKeys(disk.root);
        PromotionShape(disk.root, SlotsOf(disk.embedding.doc), netOk);
        if disk.root.embedding.Missing? {
          OldNetIsRead(disk.root, netOk);
        }
      }
    }
  }

  /** A root in format 1 without models can be migrated exactly when its `net.toml`, if any, is well typed. */
  lemma OldNetIsRead(root: Root, netOk: Item -> bool)
    requires root.Root? && root.config.Missing? && root.embedding.Missing?
    ensures RootPlan(root, netOk).ok <==> root.net.Missing? || (root.net.Toml? && netOk(Table(root.net.doc)))
  {
  }

  /**
   * The run was giving models to the workgroup and stopped after writing the root's own first
   * document, so the rerun finds a root in format 2 and neither side gets them in effect.
   */
  ghost predicate LosesModels(disk: Disk, k: nat, netOk: Item -> bool) {
    && OffersModels(disk, netOk) && disk.root.net.Toml?
    && 1 <= k < 3
    && Models(ReadEmbed(ModelTables(SlotsOf(disk.embedding.doc)))) != Ok(NO_MODELS)
  }

  /** Under a workgroup, the settings are the shared models and the device's own keys. */
  lemma LoadUnderAWorkgroup(d: Disk, keySet: bool, avx2: bool, netOk: Item -> bool)
    requires d.root.Root?
    ensures var shared := SharedModels(Opened(d.root, netOk).config);
            Load(d, keySet, avx2, netOk) == Ok(Resolve(Some(shared), DeviceEmbed(d.config), keySet, avx2))
  {
    hide SharedModels, Opened, DeviceEmbed, Resolve;
  }

  /** The same models and the same device keys come out the same, the `shadowed` flag aside. */
  lemma SameModelsSameMeaning(shared: Result<ModelSettings, Problem>, a: EmbedTable, b: EmbedTable, keySet: bool,
                              avx2: bool)
    requires Settings(a) == Settings(b)
    ensures Resolve(Some(shared), a, keySet, avx2).(shadowed := false) ==
        Resolve(Some(shared), b, keySet, avx2).(shadowed := false)
  {
    hide Resolve, Settings, Models;
    TheWorkgroupsModelsWin(shared, a, b, keySet, avx2);
  }

  /** Models that are there, or are there and broken, do not come out as none. */
  lemma SomeModelsAreNotNone(shared: Result<ModelSettings, Problem>, a: EmbedTable, b: EmbedTable, keySet: bool,
                             avx2: bool)
    requires shared != Ok(NO_MODELS)
    ensures Resolve(Some(shared), a, keySet, avx2).(shadowed := false) !=
            Resolve(Some(Ok(NO_MODELS)), b, keySet, avx2).(shadowed := false)
  {
    hide Settings, Models;
    var x, y := Resolve(Some(shared), a, keySet, avx2), Resolve(Some(Ok(NO_MODELS)), b, keySet, avx2);
    assert x.models != y.models || x.note != y.note;
  }

  lemma UnderAWorkgroup(a: Disk, b: Disk, keySet: bool, avx2: bool, netOk: Item -> bool)
    requires a.root.Root? && b.root.Root?
    requires Settings(DeviceEmbed(a.config)) == Settings(DeviceEmbed(b.config))
    ensures var x, y := SharedModels(Opened(a.root, netOk).config), SharedModels(Opened(b.root, netOk).config);
            && (x == y ==> SameMeaning(Load(a, keySet, avx2, netOk), Load(b, keySet, avx2, netOk)))
            && (x != y && y == Ok(NO_MODELS) ==>
                !SameMeaning(Load(a, keySet, avx2, netOk), Load(b, keySet, avx2, netOk)))
  {
    hide Opened, DeviceEmbed, Load, Resolve, Settings, SharedModels;
    var x, y := SharedModels(Opened(a.root, netOk).config), SharedModels(Opened(b.root, netOk).config);
    LoadUnderAWorkgroup(a, keySet, avx2, netOk);
    LoadUnderAWorkgroup(b, keySet, avx2, netOk);
    if x == y {
      SameModelsSameMeaning(x, DeviceEmbed(a.config), DeviceEmbed(b.config), keySet, avx2);
    } else if y == Ok(NO_MODELS) {
      SomeModelsAreNotNone(x, DeviceEmbed(a.config), DeviceEmbed(b.config), keySet, avx2);
    }
  }

  /** A rerun from a root that needs no promotion any more ends with this host's own models in its own file. */
  lemma RerunKeepsTheDevice(disk: Disk, again: Disk, netOk: Item -> bool)
    requires DevicePlan(disk, netOk).ok && Pending(disk) && FormatOne(disk)
    requires Promotes(disk, netOk) ==> disk.root.Root? && EmbedOk(ModelTables(SlotsOf(disk.embedding.doc)))
    requires again.net == disk.net || again.net == Missing
    requires again.embedding == disk.embedding || again.embedding == Missing
    requires Pending(again)
    requires again.embedding.Toml? ==> PromotionOf(again, netOk) == Promotion([], true, false)
    requires !NotATable(FoldNet(DocOf(disk.config), disk.net), "embed")
    requires || (again.config == disk.config && again.net == disk.net && again.embedding == disk.embedding)
             || again.config == Toml(Folded(disk, Promotes(disk, netOk)))
    ensures DevicePlan(again, netOk).ok && Migrated(again, netOk).root == again.root
    ensures var doc, doc' := Folded(disk, Promotes(disk, netOk)), DocOf(Migrated(again, netOk).config);
            && Migrated(again, netOk).config == Toml(doc') && ConfigOk(doc, netOk) && ConfigOk(doc', netOk)
            && DeviceKeys(SlotOf(doc', "embed")) == DeviceKeys(SlotOf(doc, "embed"))
            && (!Promotes(disk, netOk) ==> doc' == doc)
  {
    hide ConfigOk, FoldEmbedding, NotATable, PromotePlan, DeviceKeys, Extends, EmbedOk, MaybePut;
    PlanShape(disk, netOk);
    var moved := Promotes(disk, netOk);
    var base := FoldNet(DocOf(disk.config), disk.net);
    var doc := Folded(disk, moved);
    if disk.embedding.Toml? {
      var slots := SlotsOf(disk.embedding.doc);
      var l, r := Joined(slots.local, slots.modelLocal), Joined(slots.remote, slots.modelRemote);
      SlotsExtend(disk, netOk);
      var l', r' := if moved then slots.local else l, if moved then slots.remote else r;
      FoldedExtended(base, disk.embedding.doc, l', r', l, r, netOk);
      FoldedSlot(base, disk.embedding.doc, l', r');
    }
    assert again.config == Toml(doc) ==> FoldNet(doc, again.net) == doc;
    PlanWithoutPromotion(again, netOk);
  }

  lemma SlotsExtend(disk: Disk, netOk: Item -> bool)
    requires disk.embedding.Toml? && Readable(disk.embedding.doc) && FormatOne(disk)
    requires Promotes(disk, netOk) ==> EmbedOk(ModelTables(SlotsOf(disk.embedding.doc)))
    ensures var moved, slots := Promotes(disk, netOk), SlotsOf(disk.embedding.doc);
            var l, r := Joined(slots.local, slots.modelLocal), Joined(slots.remote, slots.modelRemote);
            Extends(if moved then slots.local else l, l, LOCAL_KEYS)
                && Extends(if moved then slots.remote else r, r, REMOTE_KEYS)
  {
    hide SlotOk, Extends, Joined;
    var slots := SlotsOf(disk.embedding.doc);
    if Promotes(disk, netOk) {
      ModelTablesAreOk(slots);
      JoinedExtends(slots.local, slots.modelLocal, LOCAL_KEYS);
      if slots.modelRemote.Some? {
        RemoteHasNoQtype(slots.modelRemote.value);
      }
      JoinedExtends(slots.remote, slots.modelRemote, REMOTE_KEYS);
    } else {
      ExtendsItself(Joined(slots.local, slots.modelLocal), LOCAL_KEYS);
      ExtendsItself(Joined(slots.remote, slots.modelRemote), REMOTE_KEYS);
    }
  }

  lemma RemoteHasNoQtype(t: Doc)
    ensures SlotOk(t, REMOTE_KEYS) ==> "qtype" !in t
  {
    assert "qtype" !in REMOTE_KEYS;
  }

  lemma PromotesOnlyIntoFormatOne(disk: Disk, netOk: Item -> bool)
    requires disk.embedding.Toml? && PromotionOf(disk, netOk).ok
    ensures PromotionOf(disk, netOk).effects != [] ==>
        disk.root.Root? && disk.root.config.Missing? && RootPlan(disk.root, netOk).ok
    ensures Promotes(disk, netOk) ==>
        PromotionOf(disk, netOk).effects != [] && EmbedOk(ModelTables(SlotsOf(disk.embedding.doc)))
    ensures PromotionOf(disk, netOk).effects == [] && !Promotes(disk, netOk) ==>
        PromotionOf(disk, netOk) == Promotion([], true, false)
  {
    hide EmbedOk, RootPlan, MaybePut;
    var slots := SlotsOf(disk.embedding.doc);
    if disk.root.Root? && disk.root.config.Missing? {
      PromotionShape(disk.root, slots, netOk);
      assert Promoted(disk.root, slots)["embed"] == Table(ModelTables(slots));
    }
  }

  /** After its first operation, and ever after, a promotion is not tried again. */
  lemma PromotionIsOver(disk: Disk, again: Disk, netOk: Item -> bool, j: nat)
    requires disk.embedding.Toml? && again.embedding == disk.embedding && PromotionOf(disk, netOk).ok
    requires j <= |PromotionOf(disk, netOk).effects| && (j == 0 ==> PromotionOf(disk, netOk).effects == [])
    requires again.root == RootAfter(disk.root, PromotionOf(disk, netOk).effects[..j])
    ensures PromotionOf(again, netOk) == Promotion([], true, false)
  {
    hide PromotePlan, RootPlan, SlotsOf;
    PromotesOnlyIntoFormatOne(disk, netOk);
    var slots := SlotsOf(disk.embedding.doc);
    if j == 0 {
      assert PromotionOf(disk, netOk).effects[..j] == [];
      assert again.root == disk.root;
    } else {
      PromotionPrefix(disk.root, slots, netOk, j);
      NoPromotionIntoFormatTwo(again.root, slots, netOk);
    }
  }

  lemma NoPromotionIntoFormatTwo(root: Root, slots: Slots, netOk: Item -> bool)
    requires root.Root? && root.config.Toml?
    ensures PromotePlan(root, slots.modelLocal, slots.modelRemote, netOk) == Promotion([], true, false)
  {
  }

  /** The disk after `k` operations of the run: either still in the root's part, or past the device's write. */
  lemma StoppedShape(disk: Disk, k: nat, netOk: Item -> bool)
    requires DevicePlan(disk, netOk).ok && Pending(disk) && k <= |DevicePlan(disk, netOk).effects|
    requires !NotATable(FoldNet(DocOf(disk.config), disk.net), "embed")
    ensures var p, s := RootPart(disk, netOk), Stopped(disk, k, netOk);
            && (k <= |p| ==> s == disk.(root := RootAfter(disk.root, p[..k])))
            && (k > |p| ==>
                && s.config == Toml(Folded(disk, Promotes(disk, netOk))) && s.root == RootAfter(disk.root, p)
                && (s.net == disk.net || s.net == Missing)
                && (s.embedding == disk.embedding || s.embedding == Missing))
  {
    hide DevicePlan, PromotionOf, Folded, Promotes, ConfigOk;
    PlanShape(disk, netOk);
    var p, doc := RootPart(disk, netOk), Folded(disk, Promotes(disk, netOk));
    var effects := DevicePlan(disk, netOk).effects;
    var blank := Disk(Missing, Missing, Missing, Missing, Missing, disk.root);
    if k <= |p| {
      assert effects[..k] == p[..k];
      RootEffects(disk, blank, p[..k]);
    } else {
      var j := k - |p| - 1;
      assert effects[..k] == p + ([WriteConfig(doc)] + Retirements(disk)[..j]);
      RootEffects(disk, blank, p);
      ApplyAllSplit(disk, p, [WriteConfig(doc)] + Retirements(disk)[..j]);
      var atWrite := ApplyAll(disk, p);
      var rest := [WriteConfig(doc)] + Retirements(disk)[..j];
      assert rest[1..] == Retirements(disk)[..j];
      RetireEffects(Apply(atWrite, rest[0]), rest[1..]);
    }
  }

  // ----- stopping once -----

  lemma LoadReads(a: Disk, b: Disk, keySet: bool, avx2: bool, netOk: Item -> bool)
    requires a.config == b.config && a.root == b.root
    ensures Load(a, keySet, avx2, netOk) == Load(b, keySet, avx2, netOk)
  {
  }

  /** The uninterrupted run, by its parts. */
  lemma MigratedShape(disk: Disk, netOk: Item -> bool)
    requires DevicePlan(disk, netOk).ok && Pending(disk)
    requires !NotATable(FoldNet(DocOf(disk.config), disk.net), "embed")
    ensures Migrated(disk, netOk).config == Toml(Folded(disk, Promotes(disk, netOk)))
    ensures Migrated(disk, netOk).root == RootAfter(disk.root, RootPart(disk, netOk))
  {
    hide DevicePlan, PromotionOf, Folded, Promotes, ConfigOk;
    PlanShape(disk, netOk);
    var effects := DevicePlan(disk, netOk).effects;
    assert effects[..|effects|] == effects;
    StoppedShape(disk, |effects|, netOk);
  }

  /** Stopped after the device's file was written: everything is in place. */
  lemma StoppedLate(disk: Disk, k: nat, keySet: bool, avx2: bool, netOk: Item -> bool)
    requires DevicePlan(disk, netOk).ok && Pending(disk) && FormatOne(disk)
    requires |RootPart(disk, netOk)| < k <= |DevicePlan(disk, netOk).effects|
    ensures SameMeaning(Load(Migrated(Stopped(disk, k, netOk), netOk), keySet, avx2, netOk),
        Load(Migrated(disk, netOk), keySet, avx2, netOk))
  {
    hide DevicePlan, PromotePlan, ConfigOk, Load, FoldEmbedding, FoldNet, FormatOne, EmbedOk, DeviceKeys, NotATable,
         Settings, DeviceEmbed, RootPlan;
    EmbedIsATable(disk, netOk);
    PlanShape(disk, netOk);
    StoppedShape(disk, k, netOk);
    MigratedShape(disk, netOk);
    var again, done := Stopped(disk, k, netOk), Migrated(disk, netOk);
    var p := RootPart(disk, netOk);
    if !Pending(again) {
      assert Migrated(again, netOk) == again by {
        NothingPending(again, netOk);
      }
      LoadReads(again, done, keySet, avx2, netOk);
    } else {
      if disk.embedding.Toml? {
        PromotesOnlyIntoFormatOne(disk, netOk);
        assert p[..|p|] == p;
        if again.embedding.Toml? {
          PromotionIsOver(disk, again, netOk, |p|);
        }
      }
      RerunKeepsTheDevice(disk, again, netOk);
      var end := Migrated(again, netOk);
      if Promotes(disk, netOk) {
        SettingsAreDeviceKeys(DocOf(end.config), netOk);
        SettingsAreDeviceKeys(DocOf(done.config), netOk);
        UnderAWorkgroup(end, done, keySet, avx2, netOk);
      } else {
        LoadReads(end, done, keySet, avx2, netOk);
      }
    }
  }

  lemma NothingPending(disk: Disk, netOk: Item -> bool)
    requires !Pending(disk)
    ensures Migrated(disk, netOk) == disk && DevicePlan(disk, netOk) == Plan([], true)
  {
  }

  /** Stopped in the root's part: the same, but for models that should have gone to the workgroup and now do not. */
  lemma StoppedEarly(disk: Disk, k: nat, keySet: bool, avx2: bool, netOk: Item -> bool)
    requires DevicePlan(disk, netOk).ok && Pending(disk) && FormatOne(disk)
    requires 1 <= k <= |RootPart(disk, netOk)| && k <= |DevicePlan(disk, netOk).effects|
    ensures SameMeaning(Load(Migrated(Stopped(disk, k, netOk), netOk), keySet, avx2, netOk),
        Load(Migrated(disk, netOk), keySet, avx2, netOk))
            <==> !LosesModels(disk, k, netOk)
  {
    hide DevicePlan, PromotePlan, ConfigOk, Load, FoldEmbedding, FoldNet, FormatOne, EmbedOk, DeviceKeys, NotATable,
         Settings, DeviceEmbed, RootPlan,
         MaybePut, Models, ReadEmbed, SharedModels, Opened;
    EmbedIsATable(disk, netOk);
    PlanShape(disk, netOk);
    PromotesExactlyWhatIsOffered(disk, netOk);
    StoppedShape(disk, k, netOk);
    MigratedShape(disk, netOk);
    PromotesOnlyIntoFormatOne(disk, netOk);
    var again, done := Stopped(disk, k, netOk), Migrated(disk, netOk);
    var p, slots := RootPart(disk, netOk), SlotsOf(disk.embedding.doc);
    assert p[..|p|] == p;
    PromotionPrefix(disk.root, slots, netOk, k);
    PromotionPrefix(disk.root, slots, netOk, |p|);
    PromotionIsOver(disk, again, netOk, k);
    RerunKeepsTheDevice(disk, again, netOk);
    var end := Migrated(again, netOk);
    SettingsAreDeviceKeys(DocOf(end.config), netOk);
    SettingsAreDeviceKeys(DocOf(done.config), netOk);
    UnderAWorkgroup(done, end, keySet, avx2, netOk);
    AbsorbedStays(end.root, netOk);
    AbsorbedStays(done.root, netOk);
    if Promotes(disk, netOk) && k < |p| {
      PromotionShape(disk.root, slots, netOk);
      SharedBeforeAndAfter(disk.root, slots, netOk);
    }
  }

  /** What the workgroup's models are with the first document, and with the promoted one. */
  lemma SharedBeforeAndAfter(root: Root, slots: Slots, netOk: Item -> bool)
    requires root.Root? && root.embedding.Missing? && ConfigOk(Promoted(root, slots), netOk)
    ensures SharedModels(Toml(FirstRootDoc(root))) == Ok(NO_MODELS)
    ensures SharedModels(Toml(Promoted(root, slots))) == Models(ReadEmbed(ModelTables(slots)))
  {
    FirstRootDocKeys(root);
    assert Promoted(root, slots)["embed"] == Table(ModelTables(slots));
  }

  /**
   * Stop the migration after any one file operation and run it again: the settings come out as
   * from an uninterrupted run, exactly unless this loses the models on their way into a workgroup
   * whose root has an old `net.toml`.
   */
  lemma StopAndRerun(disk: Disk, k: nat, keySet: bool, avx2: bool, netOk: Item -> bool)
    requires DevicePlan(disk, netOk).ok && FormatOne(disk) && k <= |DevicePlan(disk, netOk).effects|
    ensures SameMeaning(Load(Migrated(Stopped(disk, k, netOk), netOk), keySet, avx2, netOk),
        Load(Migrated(disk, netOk), keySet, avx2, netOk))
            <==> !LosesModels(disk, k, netOk)
  {
    if k == 0 {
      assert DevicePlan(disk, netOk).effects[..0] == [];
    } else if k <= |RootPart(disk, netOk)| {
      StoppedEarly(disk, k, keySet, avx2, netOk);
    } else {
      StoppedLate(disk, k, keySet, avx2, netOk);
      LossIsEarly(disk, k, netOk);
    }
  }

  lemma LossIsEarly(disk: Disk, k: nat, netOk: Item -> bool)
    requires DevicePlan(disk, netOk).ok && Pending(disk) && k > |RootPart(disk, netOk)|
    ensures !LosesModels(disk, k, netOk)
  {
    hide DevicePlan, PromotePlan, RootPlan;
    PlanShape(disk, netOk);
    PromotesExactlyWhatIsOffered(disk, netOk);
    if Promotes(disk, netOk) {
      PromotesOnlyIntoFormatOne(disk, netOk);
      PromotionPrefix(disk.root, SlotsOf(disk.embedding.doc), netOk, 1);
    }
  }

  // ----- stopping any number of times -----

  /** What a stop leaves is a disk the migration succeeds on, and after any operation it promotes nothing more. */
  lemma StoppedCanRunAgain(disk: Disk, k: nat, netOk: Item -> bool)
    requires DevicePlan(disk, netOk).ok && FormatOne(disk)
    requires k <= |DevicePlan(disk, netOk).effects|
    ensures var again := Stopped(disk, k, netOk);
            DevicePlan(again, netOk).ok && FormatOne(again) && (k > 0 ==> !Promotes(again, netOk))
  {
    hide DevicePlan, PromotePlan, ConfigOk, FoldEmbedding, FoldNet, EmbedOk, DeviceKeys, NotATable, RootPlan;
    var again := Stopped(disk, k, netOk);
    if !Pending(disk) {
      NothingPending(disk, netOk);
    } else if k == 0 {
      assert DevicePlan(disk, netOk).effects[..0] == [];
    } else {
      EmbedIsATable(disk, netOk);
      PlanShape(disk, netOk);
      StoppedShape(disk, k, netOk);
      var p := RootPart(disk, netOk);
      var j := if k <= |p| then k else |p|;
      assert p[..|p|] == p;
      if disk.embedding.Toml? {
        PromotesOnlyIntoFormatOne(disk, netOk);
        if again.embedding.Toml? {
          PromotionIsOver(disk, again, netOk, j);
        }
      }
      if Pending(again) {
        RerunKeepsTheDevice(disk, again, netOk);
      } else {
        NothingPending(again, netOk);
      }
    }
  }

  /** A run with fewer operations just ends. */
  function Capped(disk: Disk, stop: nat, netOk: Item -> bool): (k: nat)
    ensures k <= |DevicePlan(disk, netOk).effects|
  {
    var n := |DevicePlan(disk, netOk).effects|;
    if stop <= n then stop else n
  }

  /** Runs stopped after `stops[0]`, then `stops[1]`, ... operations. */
  function AfterStops(disk: Disk, stops: seq<nat>, netOk: Item -> bool): Disk
    decreases |stops|
  {
    if stops == [] then disk
    else AfterStops(Stopped(disk, Capped(disk, stops[0], netOk), netOk), stops[1..], netOk)
  }

  /** The first stop that comes after any operation, or 0 when none does. */
  function FirstStop(disk: Disk, stops: seq<nat>, netOk: Item -> bool): nat
    decreases |stops|
  {
    if stops == [] then 0
    else if Capped(disk, stops[0], netOk) > 0 then Capped(disk, stops[0], netOk)
    else FirstStop(disk, stops[1..], netOk)
  }

  /**
   * Stopped anywhere, any number of times, the migration comes out as from an uninterrupted run,
   * exactly unless the first stop loses models on their way into the workgroup.
   */
  lemma {:induction false} AnyNumberOfStops(disk: Disk, stops: seq<nat>, keySet: bool, avx2: bool, netOk: Item -> bool)
    requires DevicePlan(disk, netOk).ok && FormatOne(disk)
    ensures var stopped := AfterStops(disk, stops, netOk);
            SameMeaning(Load(Migrated(stopped, netOk), keySet, avx2, netOk),
                Load(Migrated(disk, netOk), keySet, avx2, netOk))
            <==> !LosesModels(disk, FirstStop(disk, stops, netOk), netOk)
    decreases |stops|
  {
    hide DevicePlan, Load, FormatOne, Promotes, Migrated, OffersModels;
    if stops != [] {
      var k := Capped(disk, stops[0], netOk);
      var again := Stopped(disk, k, netOk);
      if k == 0 {
        assert again == disk by {
          assert DevicePlan(disk, netOk).effects[..0] == [];
        }
        AnyNumberOfStops(disk, stops[1..], keySet, avx2, netOk);
      } else {
        StoppedCanRunAgain(disk, k, netOk);
        PromotesExactlyWhatIsOffered(again, netOk);
        StopAndRerun(disk, k, keySet, avx2, netOk);
        AnyNumberOfStops(again, stops[1..], keySet, avx2, netOk);
      }
    }
  }

  // ----- nothing is overwritten, nothing is lost -----

  /** Every table of `a`, and every entry of its `[embed]`, is in `b` as it was. */
  ghost predicate Keeps(a: File, b: File) {
    a.Toml? ==>
      && b.Toml?
      && (forall key | key in a.doc && key != "embed" :: key in b.doc && b.doc[key] == a.doc[key])
      && (forall key | key in SlotOf(a.doc, "embed") ::
        key in SlotOf(b.doc, "embed") && SlotOf(b.doc, "embed")[key] == SlotOf(a.doc, "embed")[key])
  }

  lemma FoldedKeeps(disk: Disk, moved: bool)
    requires !NotATable(FoldNet(DocOf(disk.config), disk.net), "embed")
    ensures Keeps(disk.config, Toml(Folded(disk, moved)))
  {
    var doc := FoldNet(DocOf(disk.config), disk.net);
    assert SlotOf(doc, "embed") == SlotOf(DocOf(disk.config), "embed") by {
      assert "net" != "embed";
    }
    if disk.embedding.Toml? {
      hide Merged;
      var slots := SlotsOf(disk.embedding.doc);
      var l := if moved then slots.local else Joined(slots.local, slots.modelLocal);
      var r := if moved then slots.remote else Joined(slots.remote, slots.modelRemote);
      FoldedSlot(doc, disk.embedding.doc, l, r);
      MergedKeeps(SlotOf(doc, "embed"), disk.embedding.doc, l, r);
    }
  }

  lemma MergedKeeps(embed: Doc, v1: Doc, l: Option<Doc>, r: Option<Doc>)
    ensures forall key | key in embed :: key in Merged(embed, v1, l, r) && Merged(embed, v1, l, r)[key] == embed[key]
  {
  }

  /** A failed run has touched the root at most. */
  lemma FailedPlan(disk: Disk, netOk: Item -> bool)
    requires !DevicePlan(disk, netOk).ok
    ensures forall i | 0 <= i < |DevicePlan(disk, netOk).effects| :: OnRoot(DevicePlan(disk, netOk).effects[i])
  {
    hide ConfigOk, FoldEmbedding, FoldNet, Joined, RootEmbed, MaybePut;
  }

  /** Wherever it stops, and whether or not it ends well, a run replaces nothing `config.toml` already had. */
  lemma NeverReplaces(disk: Disk, k: nat, netOk: Item -> bool)
    requires k <= |DevicePlan(disk, netOk).effects|
    ensures Keeps(disk.config, Stopped(disk, k, netOk).config)
  {
    hide DevicePlan, Folded, Keeps;
    if !DevicePlan(disk, netOk).ok {
      FailedPlan(disk, netOk);
      var e := DevicePlan(disk, netOk).effects[..k];
      RootEffects(disk, disk, e);
      KeepsItself(disk.config);
    } else if !Pending(disk) {
      NothingPending(disk, netOk);
      KeepsItself(disk.config);
    } else {
      EmbedIsATable(disk, netOk);
      StoppedShape(disk, k, netOk);
      KeepsItself(disk.config);
      FoldedKeeps(disk, Promotes(disk, netOk));
    }
  }

  lemma KeepsOn(a: File, b: File, c: File)
    requires Keeps(a, b) && Keeps(b, c)
    ensures Keeps(a, c)
  {
  }

  /** Each operation on the root keeps what the root's document has by then. */
  ghost predicate KeepsRoot(root: Root, effects: seq<Effect>)
    requires root.Root?
  {
    forall i | 0 <= i < |effects| ::
      Keeps(RootAfter(root, effects[..i]).config, RootAfter(root, effects[..i + 1]).config)
  }

  lemma RootStep(root: Root, effects: seq<Effect>, i: nat)
    requires root.Root? && i < |effects|
    ensures RootAfter(root, effects[..i + 1]).config ==
            if effects[i].WriteRoot? then Toml(effects[i].doc) else RootAfter(root, effects[..i]).config
  {
    var d := Disk(Missing, Missing, Missing, Missing, Missing, root);
    assert effects[..i + 1] == effects[..i] + [effects[i]];
    ApplyAllSplit(d, effects[..i], [effects[i]]);
    assert [effects[i]][1..] == [];
  }

  /** Migrating a root adds tables to its document where there were none. */
  lemma RootPlanKeeps(root: Root, netOk: Item -> bool)
    requires root.Root?
    ensures KeepsRoot(root, RootPlan(root, netOk).effects)
  {
    var effects := RootPlan(root, netOk).effects;
    forall i | 0 <= i < |effects|
      ensures Keeps(RootAfter(root, effects[..i]).config, RootAfter(root, effects[..i + 1]).config)
    {
      hide RootAfter, ConfigOk, RootEmbed;
      RootStep(root, effects, i);
      KeepsItself(RootAfter(root, effects[..i]).config);
      if effects[i].WriteRoot? {
        assert effects[..0] == [] && RootAfter(root, []) == root by {
          NoStep(root);
        }
      }
    }
  }

  lemma NoStep(root: Root)
    ensures RootAfter(root, []) == root
  {
  }

  /** A promotion adds `[embed]` to a document that has none. */
  lemma PromotionKeeps(root: Root, local: Option<Doc>, remote: Option<Doc>, netOk: Item -> bool)
    requires root.Root?
    ensures KeepsRoot(root, PromotePlan(root, local, remote, netOk).effects)
  {
    hide RootPlan, ConfigOk, RootAfter;
    var first, effects := RootPlan(root, netOk).effects, PromotePlan(root, local, remote, netOk).effects;
    RootPlanKeeps(root, netOk);
    forall i | 0 <= i < |effects|
      ensures Keeps(RootAfter(root, effects[..i]).config, RootAfter(root, effects[..i + 1]).config)
    {
      RootStep(root, effects, i);
      if i < |first| {
        assert effects[..i] == first[..i] && effects[..i + 1] == first[..i + 1];
      } else {
        assert effects[..i] == first;
        assert DocOf(RootAfter(root, first).config) ==
            DocOf(ApplyAll(Disk(Missing, Missing, Missing, Missing, Missing, root), first).root.config) by {
          RootAfterIs(root, first);
        }
      }
    }
  }

  lemma RootAfterIs(root: Root, effects: seq<Effect>)
    ensures RootAfter(root, effects) == ApplyAll(Disk(Missing, Missing, Missing, Missing, Missing, root), effects).root
  {
  }

  /** The operations of a run on the root come first, and are its promotion's. */
  lemma RunOnTheRoot(disk: Disk, netOk: Item -> bool) returns (p: seq<Effect>)
    requires disk.root.Root?
    ensures p <= DevicePlan(disk, netOk).effects && KeepsRoot(disk.root, p)
    ensures forall i | |p| <= i < |DevicePlan(disk, netOk).effects| :: !OnRoot(DevicePlan(disk, netOk).effects[i])
    ensures forall i | 0 <= i < |p| :: OnRoot(p[i])
  {
    hide PromotePlan, KeepsRoot, ConfigOk, FoldEmbedding, FoldNet, SlotsOf, Joined, Readable;
    p := [];
    assert KeepsRoot(disk.root, []) by {
      NothingToKeep(disk.root);
    }
    if disk.embedding.Toml? && Readable(disk.embedding.doc) && SlotsOf(disk.embedding.doc).HasModels()
       && !disk.net.NotToml? && !disk.config.NotToml? {
      var slots := SlotsOf(disk.embedding.doc);
      p := PromotePlan(disk.root, slots.modelLocal, slots.modelRemote, netOk).effects;
      PromotionKeeps(disk.root, slots.modelLocal, slots.modelRemote, netOk);
      PromotesOnRoot(disk.root, slots.modelLocal, slots.modelRemote, netOk);
    }
  }

  lemma NothingToKeep(root: Root)
    requires root.Root?
    ensures KeepsRoot(root, [])
  {
  }

  lemma PromotesOnRoot(root: Root, local: Option<Doc>, remote: Option<Doc>, netOk: Item -> bool)
    ensures var p := PromotePlan(root, local, remote, netOk); forall i | 0 <= i < |p.effects| :: OnRoot(p.effects[i])
  {
    hide ConfigOk, ApplyAll;
  }

  lemma {:induction false} KeepsRootBetween(root: Root, effects: seq<Effect>, j: nat, k: nat)
    requires root.Root? && KeepsRoot(root, effects) && j <= k <= |effects|
    ensures Keeps(RootAfter(root, effects[..j]).config, RootAfter(root, effects[..k]).config)
    decreases k
  {
    hide RootAfter, Keeps;
    if j == k {
      KeepsItself(RootAfter(root, effects[..j]).config);
    } else {
      RootStep(root, effects, k - 1);
      KeepsRootBetween(root, effects, j, k - 1);
      KeepsOn(RootAfter(root, effects[..j]).config, RootAfter(root, effects[..k - 1]).config,
          RootAfter(root, effects[..k]).config);
    }
  }

  /** Operations on the device's own files leave the root alone. */
  lemma {:induction false} DeviceEffects(disk: Disk, effects: seq<Effect>)
    requires forall i | 0 <= i < |effects| :: !OnRoot(effects[i])
    ensures ApplyAll(disk, effects).root == disk.root
    decreases |effects|
  {
    if effects != [] {
      DeviceEffects(Apply(disk, effects[0]), effects[1..]);
    }
  }

  /** The root after a stop is the root after so much of its own part. */
  lemma RootOfAStop(disk: Disk, p: seq<Effect>, k: nat, netOk: Item -> bool)
    requires disk.root.Root? && k <= |DevicePlan(disk, netOk).effects| && p <= DevicePlan(disk, netOk).effects
    requires forall i | |p| <= i < |DevicePlan(disk, netOk).effects| :: !OnRoot(DevicePlan(disk, netOk).effects[i])
    requires forall i | 0 <= i < |p| :: OnRoot(p[i])
    ensures Stopped(disk, k, netOk).root == RootAfter(disk.root, p[..if k <= |p| then k else |p|])
  {
    hide DevicePlan, OnRoot;
    var effects := DevicePlan(disk, netOk).effects;
    var j := if k <= |p| then k else |p|;
    assert effects[..k] == p[..j] + effects[j..k];
    ApplyAllSplit(disk, p[..j], effects[j..k]);
    RootEffects(disk, Disk(Missing, Missing, Missing, Missing, Missing, disk.root), p[..j]);
    DeviceEffects(ApplyAll(disk, p[..j]), effects[j..k]);
  }

  /**
   * The same of the workgroup root's document: between any two operations of a run, whether or not
   * it ends well, nothing the document had is replaced.
   */
  lemma NeverReplacesInTheRoot(disk: Disk, j: nat, k: nat, netOk: Item -> bool)
    requires disk.root.Root? && j <= k <= |DevicePlan(disk, netOk).effects|
    ensures Stopped(disk, j, netOk).root.Root? && Stopped(disk, k, netOk).root.Root?
    ensures Keeps(Stopped(disk, j, netOk).root.config, Stopped(disk, k, netOk).root.config)
  {
    hide DevicePlan, Keeps, OnRoot, KeepsRoot, RootAfter;
    var p := RunOnTheRoot(disk, netOk);
    RootOfAStop(disk, p, j, netOk);
    RootOfAStop(disk, p, k, netOk);
    KeepsRootBetween(disk.root, p, if j <= |p| then j else |p|, if k <= |p| then k else |p|);
  }

  /** And of a root migrated on its own, as every opening of the workgroup does. */
  lemma RootMigrationNeverReplaces(root: Root, j: nat, k: nat, netOk: Item -> bool)
    requires root.Root? && j <= k <= |RootPlan(root, netOk).effects|
    ensures Keeps(RootAfter(root, RootPlan(root, netOk).effects[..j]).config,
        RootAfter(root, RootPlan(root, netOk).effects[..k]).config)
  {
    RootPlanKeeps(root, netOk);
    KeepsRootBetween(root, RootPlan(root, netOk).effects, j, k);
  }

  lemma KeepsItself(f: File)
    ensures Keeps(f, f)
  {
  }

  /** A run that ends has put every old file aside, as it was. */
  lemma OldFilesAreKept(disk: Disk, netOk: Item -> bool)
    requires DevicePlan(disk, netOk).ok
    ensures var done := Migrated(disk, netOk);
            && done.net.Missing? && done.embedding.Missing?
            && done.netV1 == (if disk.net.Missing? then disk.netV1 else disk.net)
            && done.embeddingV1 == (if disk.embedding.Missing? then disk.embeddingV1 else disk.embedding)
  {
    hide DevicePlan, Folded, ConfigOk, RootPart;
    if !Pending(disk) {
      NothingPending(disk, netOk);
    } else {
      PlanShape(disk, netOk);
      var p, doc := RootPart(disk, netOk), Folded(disk, Promotes(disk, netOk));
      RootEffects(disk, disk, p);
      ApplyAllSplit(disk, p, [WriteConfig(doc)] + Retirements(disk));
      var rest := [WriteConfig(doc)] + Retirements(disk);
      assert rest[1..] == Retirements(disk);
      var written := Apply(ApplyAll(disk, p), rest[0]);
      ApplyThree(written, RetireNet, RetireEmbedding, RetireNet);
      assert Retirements(disk) == [RetireNet, RetireEmbedding] || Retirements(disk) == [RetireNet]
             || Retirements(disk) == [RetireEmbedding];
      ApplyThree(written, RetireEmbedding, RetireNet, RetireNet);
    }
  }

  const NAMED_MODEL: Doc := map["model" := Value(Text(LOCAL_MODEL))]

  const ONE_MODEL := Slots(None, None, Some(NAMED_MODEL), None)

  lemma OneModelConfigures()
    ensures EmbedOk(ModelTables(ONE_MODEL))
    ensures Models(ReadEmbed(ModelTables(ONE_MODEL))) ==
        Ok(ModelSettings(Some(LocalModel(LOCAL_MODEL, DEFAULT_DIMENSION, DEFAULT_MAX_TOKENS)), None))
  {
    var t := ModelTables(ONE_MODEL);
    assert t == map["local" := Table(NAMED_MODEL)];
    assert SlotOk(NAMED_MODEL, LOCAL_KEYS);
    assert ReadLocal(NAMED_MODEL) == LocalTable(None, Some(LOCAL_MODEL), None, None, None);
  }

  lemma OldNetRoot(netOk: Item -> bool)
    requires forall item :: netOk(item)
    ensures var root := Root(Missing, Toml(map[]), Missing);
            RootPlan(root, netOk).ok && PromotePlan(root, ONE_MODEL.modelLocal, ONE_MODEL.modelRemote, netOk).moved
  {
    var root := Root(Missing, Toml(map[]), Missing);
    assert RootPlan(root, netOk).ok;
    RootMigration(root, netOk);
    OneModelConfigures();
    var d := Disk(Missing, Missing, Missing, Missing, Missing, root);
    RootSteps(root, FirstRootDoc(root), map[]);
    assert RootPlan(root, netOk).effects == [WriteRoot(FirstRootDoc(root)), DropRootNet];
    var doc := DocOf(ApplyAll(d, RootPlan(root, netOk).effects).root.config);
    assert doc == FirstRootDoc(root) == map["net" := Table(map[])];
    assert doc["embed" := Table(ModelTables(ONE_MODEL))] == Promoted(root, ONE_MODEL);
    assert ConfigOk(Promoted(root, ONE_MODEL), netOk);
  }

  /**
   * The loss is real: a joined host with a local model, its workgroup root holding an old
   * `net.toml` only, stopped after one operation.
   */
  lemma AStopThatLosesModels() returns (disk: Disk, netOk: Item -> bool)
    ensures DevicePlan(disk, netOk).ok && FormatOne(disk)
    ensures 1 <= |DevicePlan(disk, netOk).effects| && LosesModels(disk, 1, netOk)
    ensures !SameMeaning(Load(Migrated(Stopped(disk, 1, netOk), netOk), false, true, netOk),
        Load(Migrated(disk, netOk), false, true, netOk))
  {
    netOk := (item: Item) => true;
    var v1: Doc := map["models" := Table(map["local" := Table(map[])])];
    var root := Root(Missing, Toml(map[]), Missing);
    disk := Disk(Missing, Missing, Toml(v1), Missing, Missing, root);
    assert SlotsOf(v1) == ONE_MODEL && Readable(v1);
    OldNetRoot(netOk);
    OneModelConfigures();
    PromotionShape(root, ONE_MODEL, netOk);
    hide PromotePlan, RootPlan, Models, ReadEmbed, ModelTables, Load;
    assert Promotes(disk, netOk);
    assert FoldEmbedding(map[], v1, None, None) == map[];
    StopAndRerun(disk, 1, false, true, netOk);
  }
}
