/** What a migrated directory says, in terms of the format-1 files it was migrated from. */
module MigrationMeaning {
  import opened Wrappers
  import opened Documents
  import opened EmbedSettings
  import opened ConfigFile
  import opened MigrationSafety
  import opened MigrationTogether
  import Chars = Text

  /** A key's value in either of two tables, the second one's coming first. */
  function Either<T>(switch: Option<T>, model: Option<T>): Option<T> {
    if model.Some? then model else switch
  }

  /** A format-1 local slot, its switch table and its model table read side by side. */
  function OldLocal(switch: Option<Doc>, model: Option<Doc>): Option<LocalTable> {
    if switch.None? && model.None? then None
    else
      var s, m := Default(switch, map[]), Default(model, map[]);
      Some(LocalTable(Either(FlagAt(s, "enabled"), FlagAt(m, "enabled")),
                      if model.Some? then Some(Default(TextAt(m, "model"), LOCAL_MODEL)) else TextAt(s, "model"),
                      Either(NumberAt(s, "dimension"), NumberAt(m, "dimension")),
                      Either(NumberAt(s, "max_tokens"), NumberAt(m, "max_tokens")),
                      Either(TextAt(s, "qtype"), TextAt(m, "qtype"))))
  }

  function OldRemote(switch: Option<Doc>, model: Option<Doc>): Option<RemoteTable> {
    if switch.None? && model.None? then None
    else
      var s, m := Default(switch, map[]), Default(model, map[]);
      Some(RemoteTable(Either(FlagAt(s, "enabled"), FlagAt(m, "enabled")),
                       Either(TextAt(s, "endpoint"), TextAt(m, "endpoint")),
                       Either(TextAt(s, "model"), TextAt(m, "model")),
                       Either(NumberAt(s, "dimension"), NumberAt(m, "dimension"))))
  }

  /** The model tables of a device's format-1 `embedding.toml`. */
  function OldModel(disk: Disk, slot: string): Option<Doc> {
    SubTable(Default(SubTable(DocOf(disk.embedding), "models"), map[]), slot)
  }

  // ----- reading what was written -----

  lemma SlotIsRead(doc: Doc, netOk: Item -> bool)
    requires ConfigOk(doc, netOk)
    ensures DeviceEmbed(Toml(doc)) == ReadEmbed(SlotOf(doc, "embed"))
    ensures EmbedOk(SlotOf(doc, "embed"))
  {
  }

  lemma LocalIsRead(switch: Option<Doc>, model: Option<Doc>)
    requires var joined := Joined(switch, Named(model)); joined.Some? ==> SlotOk(joined.value, LOCAL_KEYS)
    ensures var joined := Joined(switch, Named(model));
            OldLocal(switch, model) == if joined.None? then None else Some(ReadLocal(joined.value))
  {
    var joined := Joined(switch, Named(model));
    if joined.Some? {
      assert forall key | key in joined.value :: KeyOk(joined.value, key);
    }
  }

  lemma RemoteIsRead(switch: Option<Doc>, model: Option<Doc>)
    requires var joined := Joined(switch, model); joined.Some? ==> SlotOk(joined.value, REMOTE_KEYS)
    ensures var joined := Joined(switch, model);
            OldRemote(switch, model) == if joined.None? then None else Some(ReadRemote(joined.value))
  {
    var joined := Joined(switch, model);
    if joined.Some? {
      assert forall key | key in joined.value :: KeyOk(joined.value, key);
    }
  }

  /** A merged table, read: each entry the one there was, or else the one put there. */
  lemma MergedIsRead(embed: Doc, v1: Doc, l: Option<Doc>, r: Option<Doc>)
    requires EmbedOk(Merged(embed, v1, l, r))
    ensures var was, now := ReadEmbed(embed), ReadEmbed(Merged(embed, v1, l, r));
            && now.cacheDir == (if "cache_dir" in embed then was.cacheDir else TextAt(v1, "cache_dir"))
            && now.local == (if "local" in embed then was.local
                           else if l.None? then None else Some(ReadLocal(l.value)))
            && now.remote == (if "remote" in embed then was.remote
                            else if r.None? then None else Some(ReadRemote(r.value)))
    ensures "local" !in embed && l.Some? ==> SlotOk(l.value, LOCAL_KEYS)
    ensures "remote" !in embed && r.Some? ==> SlotOk(r.value, REMOTE_KEYS)
  {
    hide Merged, ReadLocal, ReadRemote, SlotOk;
    MergedParts(embed, v1, l, r);
  }

  // ----- the device -----

  /**
   * What the migrated `config.toml` says of embedding: where it had an entry of its `[embed]`, that
   * one; where it had none, what the old tables say, the models among it unless they went to the
   * workgroup.
   */
  lemma TheDeviceSays(disk: Disk, netOk: Item -> bool)
    requires DevicePlan(disk, netOk).ok && Pending(disk)
    ensures var v1, had := DocOf(disk.embedding), Default(SubTable(DocOf(disk.config), "embed"), map[]);
            var offered := OffersModels(disk, netOk);
            var now := DeviceEmbed(Migrated(disk, netOk).config);
            && now.cacheDir == (if "cache_dir" in had then TextAt(had, "cache_dir") else TextAt(v1, "cache_dir"))
            && now.local == (if "local" in had then ReadEmbed(had).local
                 else OldLocal(SubTable(v1, "local"), if offered then None else OldModel(disk, "local")))
            && now.remote == (if "remote" in had then ReadEmbed(had).remote
                 else OldRemote(SubTable(v1, "remote"), if offered then None else OldModel(disk, "remote")))
    ensures forall key | key in {"local", "remote", "models"} && key in DocOf(disk.embedding) ::
              DocOf(disk.embedding)[key].Table?
    ensures var models := Default(SubTable(DocOf(disk.embedding), "models"), map[]);
            forall key | key in {"local", "remote"} && key in models :: models[key].Table?
  {
    hide DevicePlan, ReadLocal, ReadRemote, OldLocal, OldRemote, Merged, FoldEmbedding, ConfigOk, PromotionOf,
         OffersModels, SlotOk, EmbedOk;
    PlanShape(disk, netOk);
    MigratedShape(disk, netOk);
    PromotesExactlyWhatIsOffered(disk, netOk);
    var doc := Folded(disk, Promotes(disk, netOk));
    SlotIsRead(doc, netOk);
    var base := FoldNet(DocOf(disk.config), disk.net);
    assert SlotOf(base, "embed") == SlotOf(DocOf(disk.config), "embed");
    if disk.embedding.Toml? {
      TheOldSlots(disk, netOk);
    } else {
      NoOldSlots();
    }
  }

  lemma NoOldSlots()
    ensures OldLocal(None, None).None? && OldRemote(None, None).None?
  {
  }

  lemma TheOldSlots(disk: Disk, netOk: Item -> bool)
    requires DevicePlan(disk, netOk).ok && disk.embedding.Toml?
    requires !NotATable(FoldNet(DocOf(disk.config), disk.net), "embed")
    requires Readable(disk.embedding.doc)
    requires EmbedOk(SlotOf(Folded(disk, Promotes(disk, netOk)), "embed"))
    ensures var v1, had := DocOf(disk.embedding), SlotOf(FoldNet(DocOf(disk.config), disk.net), "embed");
            var moved := Promotes(disk, netOk);
            var now := ReadEmbed(SlotOf(Folded(disk, moved), "embed"));
            && now.cacheDir == (if "cache_dir" in had then TextAt(had, "cache_dir") else TextAt(v1, "cache_dir"))
            && now.local == (if "local" in had then ReadEmbed(had).local
                 else OldLocal(SubTable(v1, "local"), if moved then None else OldModel(disk, "local")))
            && now.remote == (if "remote" in had then ReadEmbed(had).remote
                 else OldRemote(SubTable(v1, "remote"), if moved then None else OldModel(disk, "remote")))
  {
    hide DevicePlan, ReadLocal, ReadRemote, OldLocal, OldRemote, Merged, FoldEmbedding, SlotOk, EmbedOk, Promotes,
         Joined;
    var slots, moved := SlotsOf(disk.embedding.doc), Promotes(disk, netOk);
    var base := FoldNet(DocOf(disk.config), disk.net);
    var ml, mr := if moved then None else OldModel(disk, "local"), if moved then None else OldModel(disk, "remote");
    var l, r := Joined(slots.local, Named(ml)), Joined(slots.remote, mr);
    assert Joined(slots.local, None) == slots.local && Joined(slots.remote, None) == slots.remote by {
      NothingJoined(slots.local);
      NothingJoined(slots.remote);
    }
    FoldedSlot(base, disk.embedding.doc, l, r);
    var embed := SlotOf(base, "embed");
    MergedIsRead(embed, disk.embedding.doc, l, r);
    if "local" !in embed {
      LocalIsRead(slots.local, ml);
    }
    if "remote" !in embed {
      RemoteIsRead(slots.remote, mr);
    }
  }

  lemma NothingJoined(slot: Option<Doc>)
    ensures Joined(slot, None) == slot
  {
  }

  /** `[net]` is the one there was, or else the old `net.toml`; no other table comes or goes but `[embed]`. */
  lemma TheOtherTables(disk: Disk, netOk: Item -> bool, key: string)
    requires DevicePlan(disk, netOk).ok && Pending(disk) && key != "embed"
    ensures var had, now := DocOf(disk.config), DocOf(Migrated(disk, netOk).config);
            && Migrated(disk, netOk).config.Toml?
            && (key in now <==> key in had || (key == "net" && disk.net.Toml?))
            && (key in now ==> now[key] == if key in had then had[key] else Table(disk.net.doc))
  {
    hide DevicePlan, Merged, ConfigOk, Promotes, Joined;
    PlanShape(disk, netOk);
    MigratedShape(disk, netOk);
    if disk.embedding.Toml? {
      var slots, moved := SlotsOf(disk.embedding.doc), Promotes(disk, netOk);
      FoldedSlot(FoldNet(DocOf(disk.config), disk.net), disk.embedding.doc,
          if moved then slots.local else Joined(slots.local, slots.modelLocal),
          if moved then slots.remote else Joined(slots.remote, slots.modelRemote));
    }
  }

  /** What a promotion comes to: it fails on models that are not well typed, and only where they would be written. */
  lemma PromotionOk(root: Root, slots: Slots, netOk: Item -> bool)
    requires root.Root? && root.config.Missing?
    ensures var p := PromotePlan(root, slots.modelLocal, slots.modelRemote, netOk);
            var reached := RootPlan(root, netOk).ok && root.embedding.Missing?;
            p.moved == (reached && EmbedOk(ModelTables(slots))) && p.ok == (p.moved || !reached)
  {
    if RootPlan(root, netOk).ok {
      RootMigration(root, netOk);
      FirstRootDocKeys(root);
      hide RootPlan, MaybePut, EmbedOk;
      var d := Disk(Missing, Missing, Missing, Missing, Missing, root);
      var effects := RootPlan(root, netOk).effects;
      if !(root.net.Missing? && root.embedding.Missing?) {
        assert effects[0] == WriteRoot(FirstRootDoc(root));
        assert forall e | e in effects[1..] :: e in {DropRootNet, DropRootEmbedding};
        DropsKeepConfig(Apply(d, effects[0]), effects[1..]);
      }
      assert DocOf(ApplyAll(d, effects).root.config) == FirstRootDoc(root);
      if root.embedding.Missing? {
        OldNetIsRead(root, netOk);
      }
    }
  }

  /**
   * When a device's migration succeeds: its files can be read, the old slots are tables, models it
   * offers its workgroup are well typed, and so is the document it ends with.
   */
  lemma DeviceMigratesIff(disk: Disk, netOk: Item -> bool)
    requires Pending(disk)
    ensures var v1 := DocOf(disk.embedding);
            var models := Default(SubTable(v1, "models"), map[]);
            DevicePlan(disk, netOk).ok <==>
            && !disk.net.NotToml? && !disk.embedding.NotToml? && !disk.config.NotToml?
            && (forall key | key in {"local", "remote", "models"} && key in v1 :: v1[key].Table?)
            && (forall key | key in {"local", "remote"} && key in models :: models[key].Table?)
            && (OffersModels(disk, netOk) ==> EmbedOk(ModelTables(SlotsOf(v1))))
            && !NotATable(FoldNet(DocOf(disk.config), disk.net), "embed")
            && ConfigOk(Folded(disk, OffersModels(disk, netOk)), netOk)
  {
    hide ConfigOk, EmbedOk, FoldEmbedding, FoldNet, Joined, Readable, PromotionOf, OffersModels, SlotsOf;
    SlotsAreTables(DocOf(disk.embedding));
    if disk.embedding.Toml? {
      WhatIsPromoted(disk, netOk);
      assert DevicePlan(disk, netOk).ok <==>
          && !disk.net.NotToml? && !disk.config.NotToml? && Readable(disk.embedding.doc) && PromotionOf(disk, netOk).ok
          && !NotATable(FoldNet(DocOf(disk.config), disk.net), "embed")
          && ConfigOk(Folded(disk, PromotionOf(disk, netOk).moved), netOk) by {
        PromotionIs(disk, netOk);
      }
    } else {
      NoOffer(disk, netOk);
      if DevicePlan(disk, netOk).ok {
        EmbedIsATable(disk, netOk);
      }
    }
  }

  lemma NoOffer(disk: Disk, netOk: Item -> bool)
    requires !disk.embedding.Toml?
    ensures !OffersModels(disk, netOk) && Readable(map[])
  {
  }

  lemma PromotionIs(disk: Disk, netOk: Item -> bool)
    requires disk.embedding.Toml?
    ensures var slots := SlotsOf(disk.embedding.doc);
            PromotionOf(disk, netOk) ==
            if slots.HasModels() then PromotePlan(disk.root, slots.modelLocal, slots.modelRemote, netOk)
            else Promotion([], true, false)
  {
  }

  lemma SlotsAreTables(v1: Doc)
    ensures var models := Default(SubTable(v1, "models"), map[]);
            Readable(v1) <==>
            && (forall key | key in {"local", "remote", "models"} && key in v1 :: v1[key].Table?)
            && (forall key | key in {"local", "remote"} && key in models :: models[key].Table?)
  {
  }

  lemma WhatIsPromoted(disk: Disk, netOk: Item -> bool)
    requires disk.embedding.Toml?
    ensures var good := EmbedOk(ModelTables(SlotsOf(disk.embedding.doc)));
            && PromotionOf(disk, netOk).moved == (OffersModels(disk, netOk) && good)
            && PromotionOf(disk, netOk).ok == (OffersModels(disk, netOk) ==> good)
  {
    hide EmbedOk, RootPlan, PromotePlan, ModelTables, SlotsOf;
    if disk.root.Root? && disk.root.config.Missing? {
      PromotionOk(disk.root, SlotsOf(disk.embedding.doc), netOk);
      if disk.root.embedding.Missing? {
        OldNetIsRead(disk.root, netOk);
      }
    } else {
      NoPromotionThere(disk.root, SlotsOf(disk.embedding.doc), netOk);
    }
  }

  lemma NoPromotionThere(root: Root, slots: Slots, netOk: Item -> bool)
    requires !(root.Root? && root.config.Missing?)
    ensures PromotePlan(root, slots.modelLocal, slots.modelRemote, netOk) == Promotion([], true, false)
  {
  }

  /** Something a settings file may not hold: an unknown table or key, or one of the wrong type. */
  ghost predicate Malformed(doc: Doc) {
    var embed := SlotOf(doc, "embed");
    || (exists key :: key in doc && key !in {"net", "embed", "gui"})
    || ("gui" in doc && !doc["gui"].Table?)
    || ("embed" in doc && !doc["embed"].Table?)
    || (exists key :: key in embed && key !in {"cache_dir", "local", "remote"})
    || ("cache_dir" in embed && TextAt(embed, "cache_dir").None?)
    || ("local" in embed && !embed["local"].Table?) || ("remote" in embed && !embed["remote"].Table?)
  }

  /** A device whose `config.toml` is malformed is not migrated: the run fails and leaves the device's files alone. */
  lemma MalformedIsLeftAlone(disk: Disk, netOk: Item -> bool)
    requires Pending(disk) && disk.config.Toml? && Malformed(disk.config.doc)
    ensures !DevicePlan(disk, netOk).ok
    ensures Migrated(disk, netOk) == disk.(root := Migrated(disk, netOk).root)
  {
    hide DevicePlan, Migrated, Merged;
    if DevicePlan(disk, netOk).ok {
      MalformedStays(disk, netOk);
    }
    FailedPlan(disk, netOk);
    RootEffects(disk, disk, DevicePlan(disk, netOk).effects);
    assert Migrated(disk, netOk) == ApplyAll(disk, DevicePlan(disk, netOk).effects) by {
      MigratedIs(disk, netOk);
    }
  }

  lemma MigratedIs(disk: Disk, netOk: Item -> bool)
    ensures Migrated(disk, netOk) == ApplyAll(disk, DevicePlan(disk, netOk).effects)
  {
  }

  lemma MalformedStays(disk: Disk, netOk: Item -> bool)
    requires DevicePlan(disk, netOk).ok && Pending(disk) && disk.config.Toml?
    ensures !Malformed(disk.config.doc)
  {
    hide DevicePlan, Folded, SlotOk, Promotes, Keeps, Malformed, ConfigOk;
    PlanShape(disk, netOk);
    FoldedKeeps(disk, Promotes(disk, netOk));
    MalformedIsKept(disk.config.doc, Folded(disk, Promotes(disk, netOk)), netOk);
  }

  lemma MalformedIsKept(doc: Doc, more: Doc, netOk: Item -> bool)
    requires Keeps(Toml(doc), Toml(more)) && ConfigOk(more, netOk) && !NotATable(doc, "embed")
    ensures !Malformed(doc)
  {
    hide SlotOk;
    var embed, wider := SlotOf(doc, "embed"), SlotOf(more, "embed");
    SlotIsRead(more, netOk);
    assert forall key | key in embed :: key in wider && wider[key] == embed[key];
    assert forall key | key in doc && key != "embed" :: key in more && more[key] == doc[key];
  }

  // ----- the workgroup -----

  /**
   * When a root's migration succeeds: the old files it takes something from can be read, their slots
   * are tables, and what it would write is well typed. What it takes nothing from is not looked at.
   */
  lemma RootMigratesIff(root: Root, netOk: Item -> bool)
    requires root.Root? && !(root.net.Missing? && root.embedding.Missing?)
    ensures var had := DocOf(root.config);
            var net, embedding := !root.net.Missing? && "net" !in had, !root.embedding.Missing? && "embed" !in had;
            RootPlan(root, netOk).ok <==>
            && !root.config.NotToml?
            && (net ==> root.net.Toml?)
            && (embedding ==> root.embedding.Toml? && forall key | key in {"local", "remote"} ::
                  key in root.embedding.doc ==> root.embedding.doc[key].Table?)
            && (net || embedding ==> ConfigOk(RootDoc(root), netOk))
  {
    hide ConfigOk, RootEmbed;
  }

  /** A workgroup whose settings cannot be read has invalid models; one without any settings has none. */
  lemma WithoutRootSettings(disk: Disk, keySet: bool, avx2: bool, netOk: Item -> bool)
    requires disk.root.Root? && disk.root.net.Missing? && disk.root.embedding.Missing?
    ensures var r := Load(disk, keySet, avx2, netOk);
            && r.Ok?
            && (disk.root.config.NotToml? ==> r.value.note == Some(Invalid(NotReadable)) && r.value.models == NO_MODELS)
            && (disk.root.config.Missing? ==> r.value.note == Some(NotConfigured) && r.value.models == NO_MODELS)
            && (!disk.config.Toml? ==> r.value.device == DeviceSettings(None, None, None, None))
  {
  }

  /** What a root's old `embedding.toml` says. */
  function OldRootEmbed(v1: Doc): EmbedTable {
    EmbedTable(None, OldLocal(None, SubTable(v1, "local")), OldRemote(None, SubTable(v1, "remote")))
  }

  lemma RootEmbedIsRead(v1: Doc)
    requires EmbedOk(RootEmbed(v1))
    ensures ReadEmbed(RootEmbed(v1)) == OldRootEmbed(v1)
  {
    hide ReadLocal, ReadRemote, OldLocal, OldRemote;
    var l, r := SubTable(v1, "local"), SubTable(v1, "remote");
    var t := RootEmbed(v1);
    assert l.Some? ==> "local" in t && t["local"] == Table(Named(l).value);
    assert r.Some? ==> "remote" in t && t["remote"] == Table(r.value);
    LocalIsRead(None, l);
    RemoteIsRead(None, r);
    NothingJoined(None);
  }

  /** The document a root's migration makes of the one it had. */
  function RootDoc(root: Root): Doc
    requires root.Root?
  {
    var had := DocOf(root.config);
    var withNet := if root.net.Toml? && "net" !in had then had["net" := Table(root.net.doc)] else had;
    if root.embedding.Toml? && "embed" !in had then withNet["embed" := Table(RootEmbed(root.embedding.doc))]
    else withNet
  }

  lemma RootOpened(root: Root, netOk: Item -> bool)
    requires root.Root? && RootPlan(root, netOk).ok
    ensures var had, end := DocOf(root.config), Opened(root, netOk);
            && end.net.Missing? && end.embedding.Missing?
            && (if (root.net.Toml? && "net" !in had) || (root.embedding.Toml? && "embed" !in had)
                then end.config == Toml(RootDoc(root)) && ConfigOk(RootDoc(root), netOk)
                else end.config == root.config)
  {
    hide ConfigOk, RootEmbed;
    var effects := RootPlan(root, netOk).effects;
    AppliedFileByFile(Disk(Missing, Missing, Missing, Missing, Missing, root), effects);
    assert root.net.Missing? || DropRootNet in effects;
    assert root.embedding.Missing? || DropRootEmbedding in effects;
    if effects != [] && effects[0].WriteRoot? {
      assert forall e | e in effects[1..] :: !e.WriteRoot?;
      NoRootWrite(effects[1..]);
    } else {
      NoRootWrite(effects);
    }
  }

  lemma {:induction false} NoRootWrite(effects: seq<Effect>)
    requires forall e | e in effects :: !e.WriteRoot?
    ensures LastRoot(effects).None?
    decreases |effects|
  {
    if effects != [] {
      NoRootWrite(effects[1..]);
    }
  }

  lemma SlotsWereTables(root: Root, netOk: Item -> bool)
    requires root.Root? && RootPlan(root, netOk).ok && "embed" !in DocOf(root.config)
    ensures forall key | key in {"local", "remote"} && key in DocOf(root.embedding) ::
              DocOf(root.embedding)[key].Table?
  {
    hide ConfigOk, RootEmbed;
  }

  /**
   * What a root says once it is opened, if its migration succeeds: what its `config.toml` said, or
   * else what its old files did. These are gone.
   */
  lemma TheRootSays(root: Root, netOk: Item -> bool)
    requires root.Root? && RootPlan(root, netOk).ok
    ensures var had, end := DocOf(root.config), Opened(root, netOk);
            && end.net.Missing? && end.embedding.Missing?
            && DeviceEmbed(end.config) ==
               (if "embed" in had || !root.embedding.Toml? then DeviceEmbed(root.config)
                else OldRootEmbed(root.embedding.doc))
    ensures "embed" !in DocOf(root.config) ==>
              forall key | key in {"local", "remote"} && key in DocOf(root.embedding) ::
                DocOf(root.embedding)[key].Table?
    ensures var had, now := DocOf(root.config), DocOf(Opened(root, netOk).config);
            forall key | key != "embed" ::
              && (key in now <==> key in had || (key == "net" && root.net.Toml?))
              && (key in now ==> now[key] == if key in had then had[key] else Table(root.net.doc))
  {
    hide EmbedOk, RootEmbed, ReadEmbed, OldRootEmbed, RootPlan, Opened;
    RootOpened(root, netOk);
    if "embed" !in DocOf(root.config) {
      SlotsWereTables(root, netOk);
    }
    if "embed" !in DocOf(root.config) && root.embedding.Toml? {
      RootEmbedIsRead(root.embedding.doc);
    }
  }

  /** A host that offers its models: they are its workgroup's, and no longer its own. */
  lemma TheWorkgroupSays(disk: Disk, netOk: Item -> bool)
    requires DevicePlan(disk, netOk).ok && OffersModels(disk, netOk)
    ensures var root := Migrated(disk, netOk).root;
            && root.Root?
            && ReadEmbedTable(Opened(root, netOk).config) ==
               Ok(Some(EmbedTable(None, OldLocal(None, OldModel(disk, "local")),
                                  OldRemote(None, OldModel(disk, "remote")))))
  {
    hide DevicePlan, RootPlan, PromotePlan, ModelTables, EmbedOk, ReadEmbed, OldLocal, OldRemote, FirstRootDoc, Opened;
    PlanShape(disk, netOk);
    MigratedShape(disk, netOk);
    PromotesExactlyWhatIsOffered(disk, netOk);
    PromotesOnlyIntoFormatOne(disk, netOk);
    var slots, p := SlotsOf(disk.embedding.doc), RootPart(disk, netOk);
    assert p[..|p|] == p;
    PromotionPrefix(disk.root, slots, netOk, |p|);
    PromotionShape(disk.root, slots, netOk);
    var root := Migrated(disk, netOk).root;
    AbsorbedStays(root, netOk);
    assert Promoted(disk.root, slots)["embed"] == Table(ModelTables(slots));
    ModelTablesAreRead(OldModel(disk, "local"), OldModel(disk, "remote"), slots);
  }

  lemma ModelTablesAreRead(ml: Option<Doc>, mr: Option<Doc>, slots: Slots)
    requires slots.modelLocal == Named(ml) && slots.modelRemote == mr && EmbedOk(ModelTables(slots))
    ensures ReadEmbed(ModelTables(slots)) == EmbedTable(None, OldLocal(None, ml), OldRemote(None, mr))
  {
    hide ReadLocal, ReadRemote, OldLocal, OldRemote;
    ModelTablesAreOk(slots);
    var t := ModelTables(slots);
    assert slots.modelLocal.Some? ==> "local" in t && t["local"] == Table(slots.modelLocal.value);
    assert mr.Some? ==> "remote" in t && t["remote"] == Table(mr.value);
    LocalIsRead(None, ml);
    RemoteIsRead(None, mr);
  }

  // ----- the settings in effect -----

  /** Switch tables hold the device's switches only, and model tables none of them, as format 1 had it. */
  ghost predicate SwitchesOnly(disk: Disk) {
    var v1 := DocOf(disk.embedding);
    && (forall key | key in {"local", "remote"} && SubTable(v1, key).Some? ::
          SubTable(v1, key).value.Keys <= {"enabled", "qtype"})
    && (forall key | key in {"local", "remote"} && OldModel(disk, key).Some? ::
          {"enabled", "qtype"} !! OldModel(disk, key).value.Keys)
  }

  /** The old model tables are good: the one local model, bounds, and a remote slot in full or not at all. */
  predicate GoodModels(ml: Option<Doc>, mr: Option<Doc>) {
    && (ml.Some? ==>
          && Default(TextAt(ml.value, "model"), LOCAL_MODEL) == LOCAL_MODEL
          && 64 <= Default(NumberAt(ml.value, "dimension"), 1024) <= 2048
          && 1 <= Default(NumberAt(ml.value, "max_tokens"), 1024) <= 8192)
    && (mr.Some? ==>
          var endpoint, model := TextAt(mr.value, "endpoint"), TextAt(mr.value, "model");
          var dimension := NumberAt(mr.value, "dimension");
          || (endpoint.None? && model.None? && dimension.None?)
          || (endpoint.Some? && model.Some? && dimension.Some? && !Chars.Blank(model.value) && dimension.value != 0
              && ("http://" <= endpoint.value || "https://" <= endpoint.value)))
  }

  function OldModels(ml: Option<Doc>, mr: Option<Doc>): ModelSettings
    requires GoodModels(ml, mr)
  {
    ModelSettings(if ml.None? then None
                  else Some(LocalModel(LOCAL_MODEL, Default(NumberAt(ml.value, "dimension"), 1024),
                                       Default(NumberAt(ml.value, "max_tokens"), 1024))),
                  if mr.None? || TextAt(mr.value, "endpoint").None? then None
                  else Some(RemoteModel(TextAt(mr.value, "endpoint").value, TextAt(mr.value, "model").value,
                                        NumberAt(mr.value, "dimension").value)))
  }

  lemma OldTablesConfigure(cache: Option<string>, l: Option<Doc>, r: Option<Doc>, ml: Option<Doc>, mr: Option<Doc>)
    requires (l.Some? ==> l.value.Keys <= {"enabled", "qtype"}) && (r.Some? ==> r.value.Keys <= {"enabled", "qtype"})
    ensures var models := Models(EmbedTable(cache, OldLocal(l, ml), OldRemote(r, mr)));
            if GoodModels(ml, mr) then models == Ok(OldModels(ml, mr)) else models.Err?
  {
  }

  /**
   * The settings after a migration, in terms of the old files, for a host without `[embed]` before
   * it and outside a workgroup, or giving its models to one: the models in effect are those of
   * `[models]`, the switches, the cache and the quantization those of the old tables, and the slot
   * that serves follows from both.
   */
  lemma TheSettingsSurvive(disk: Disk, keySet: bool, avx2: bool, netOk: Item -> bool)
    requires DevicePlan(disk, netOk).ok && Pending(disk) && SwitchesOnly(disk)
    requires "embed" !in DocOf(disk.config)
    requires disk.root.NoWorkgroup? || OffersModels(disk, netOk)
    ensures Load(Migrated(disk, netOk), keySet, avx2, netOk).Ok?
    ensures var r := Load(Migrated(disk, netOk), keySet, avx2, netOk).value;
            var ml, mr := OldModel(disk, "local"), OldModel(disk, "remote");
            var good := GoodModels(ml, mr);
            && r.models == (if good then OldModels(ml, mr) else NO_MODELS)
            && (good <==> !(r.note.Some? && r.note.value.Invalid?))
            && (r.models != NO_MODELS ==> r.source == Some(if disk.root.Root? then Workgroup else Device))
    ensures var r := Load(Migrated(disk, netOk), keySet, avx2, netOk).value;
            var v1 := DocOf(disk.embedding);
            var l, s := Default(SubTable(v1, "local"), map[]), Default(SubTable(v1, "remote"), map[]);
            && r.device == DeviceSettings(FlagAt(l, "enabled"), FlagAt(s, "enabled"), TextAt(v1, "cache_dir"),
                               TextAt(l, "qtype"))
            && r.localQtype == Default(TextAt(l, "qtype"), "f16")
    ensures var r := Load(Migrated(disk, netOk), keySet, avx2, netOk).value;
            var v1 := DocOf(disk.embedding);
            var l, s := Default(SubTable(v1, "local"), map[]), Default(SubTable(v1, "remote"), map[]);
            r.active == if r.models.remote.Some? && FlagAt(s, "enabled") != Some(false) then Some(Remote)
                        else if r.models.local.Some? && Default(FlagAt(l, "enabled"), avx2) then Some(Local)
                        else None
  {
    hide DevicePlan, Migrated, OffersModels, Models, Opened, GoodModels, OldModels, OldLocal, OldRemote, Resolve,
         ReadEmbedTable, DeviceEmbed, Settings;
    TheDeviceSays(disk, netOk);
    var v1, done := DocOf(disk.embedding), Migrated(disk, netOk);
    var l, r := SubTable(v1, "local"), SubTable(v1, "remote");
    var ml, mr := OldModel(disk, "local"), OldModel(disk, "remote");
    var device := DeviceEmbed(done.config);
    var shared := SharedOf(disk, netOk);
    CheckedModels(EmbedTable(None, OldLocal(None, ml), OldRemote(None, mr)));
    OldTablesConfigure(device.cacheDir, l, r, ml, mr);
    OldTablesConfigure(None, None, None, ml, mr);
    TheModelsInEffect(shared, device, keySet, avx2);
    WhichSlotServes(shared, device, keySet, avx2);
    TheSwitches(device, l, r, if shared.Some? then None else ml, if shared.Some? then None else mr);
  }

  /** The workgroup's models after the migration, if there is one, the old model tables of this host. */
  lemma SharedOf(disk: Disk, netOk: Item -> bool) returns (shared: Option<Result<ModelSettings, Problem>>)
    requires DevicePlan(disk, netOk).ok && (disk.root.NoWorkgroup? || OffersModels(disk, netOk))
    ensures shared == if disk.root.NoWorkgroup? then None
            else Some(Models(EmbedTable(None, OldLocal(None, OldModel(disk, "local")),
                                        OldRemote(None, OldModel(disk, "remote")))))
    ensures shared.Some? == disk.root.Root? == OffersModels(disk, netOk)
    ensures var done := Migrated(disk, netOk);
            forall keySet, avx2 ::
              Load(done, keySet, avx2, netOk) == Ok(Resolve(shared, DeviceEmbed(done.config), keySet, avx2))
  {
    hide DevicePlan, OldLocal, OldRemote, Opened, Models, ReadEmbedTable, Resolve, DeviceEmbed, OldModel;
    var done := Migrated(disk, netOk);
    if disk.root.NoWorkgroup? {
      AppliedFileByFile(disk, DevicePlan(disk, netOk).effects);
      shared := None;
    } else {
      TheWorkgroupSays(disk, netOk);
      shared := Some(SharedModels(Opened(done.root, netOk).config));
    }
  }

  lemma TheSwitches(t: EmbedTable, l: Option<Doc>, r: Option<Doc>, ml: Option<Doc>, mr: Option<Doc>)
    requires t.local == OldLocal(l, ml) && t.remote == OldRemote(r, mr)
    requires ml.Some? ==> {"enabled", "qtype"} !! ml.value.Keys
    requires mr.Some? ==> {"enabled", "qtype"} !! mr.value.Keys
    ensures var s, u := Default(l, map[]), Default(r, map[]);
            Settings(t) == DeviceSettings(FlagAt(s, "enabled"), FlagAt(u, "enabled"), t.cacheDir, TextAt(s, "qtype"))
  {
    assert forall m: Option<Doc> | m.Some? && {"enabled", "qtype"} !! m.value.Keys ::
        "enabled" !in m.value && "qtype" !in m.value by {
      assert "enabled" in {"enabled", "qtype"} && "qtype" in {"enabled", "qtype"};
    }
  }
}
