/** The migrations as they run: documents edited in place, then file operations one by one, until the power goes. */
module ConfigStore {
  import opened Wrappers
  import opened Documents
  import opened EmbedSettings
  import opened ConfigFile
  import opened MigrationSafety

  /** How a migration ends: well, with an error, or with the power. */
  datatype Ended = Finished | Failed | Stopped

  function RootOperations(root: Root, doc: Doc, changed: bool): seq<Effect>
    requires root.Root?
  {
    (if changed then [WriteRoot(doc)] else [])
    + (if root.net.Missing? then [] else [DropRootNet])
    + (if root.embedding.Missing? then [] else [DropRootEmbedding])
  }

  lemma NothingToMigrate(root: Root, netOk: Item -> bool)
    requires root.Root? && root.net.Missing? && root.embedding.Missing?
    ensures RootPlan(root, netOk) == Plan([], true)
  {
  }

  lemma RootPlanOnRoot(root: Root, netOk: Item -> bool)
    requires root.Root?
    ensures forall i | 0 <= i < |RootPlan(root, netOk).effects| :: OnRoot(RootPlan(root, netOk).effects[i])
    ensures !RootPlan(root, netOk).ok ==> RootPlan(root, netOk).effects == []
  {
  }

  /** A migration that promotes begins with the promotion, and ends with it when that fails. */
  lemma PromotionFirst(disk: Disk, netOk: Item -> bool)
    requires disk.embedding.Toml? && Readable(disk.embedding.doc) && SlotsOf(disk.embedding.doc).HasModels()
    requires !disk.net.NotToml? && !disk.config.NotToml?
    ensures var slots := SlotsOf(disk.embedding.doc);
            var p, plan := PromotePlan(disk.root, slots.modelLocal, slots.modelRemote, netOk), DevicePlan(disk, netOk);
            p.effects <= plan.effects && (!p.ok ==> plan == Plan(p.effects, false))
  {
    hide PromotePlan, ConfigOk, FoldEmbedding, FoldNet, Readable, SlotsOf, Joined;
  }

  /** A host's settings files, and how many more file operations it will do before it stops. */
  class Store {
    const netOk: Item -> bool
    var disk: Disk
    var left: nat

    constructor (disk: Disk, left: nat, netOk: Item -> bool)
      ensures this.disk == disk && this.left == left && this.netOk == netOk
    {
      this.disk, this.left, this.netOk := disk, left, netOk;
    }

    /** The first `k` of these operations have been done, from `before` and with `power`. */
    ghost predicate Reached(before: Disk, power: nat, effects: seq<Effect>, k: nat)
      reads this
    {
      && k <= |effects| && k <= power
      && disk == ApplyAll(before, effects[..k]) && left == power - k
    }

    /** All of the plan was done that the power lasted for. */
    ghost predicate Performed(before: Disk, power: nat, plan: Plan, ended: Ended)
      reads this
    {
      var n := if power < |plan.effects| then power else |plan.effects|;
      && Reached(before, power, plan.effects, n)
      && ended == if n < |plan.effects| then Stopped else if plan.ok then Finished else Failed
    }

    /** One file operation. */
    method Do(e: Effect, ghost before: Disk, ghost power: nat, ghost effects: seq<Effect>, ghost k: nat)
      returns (on: bool)
      requires Reached(before, power, effects, k) && k < |effects| && effects[k] == e
      modifies this
      ensures on <==> old(left) > 0
      ensures on ==> Reached(before, power, effects, k + 1) && disk == Apply(old(disk), e)
      ensures !on ==> Reached(before, power, effects, k) && k == power
    {
      on := left > 0;
      if on {
        assert effects[..k + 1] == effects[..k] + [e];
        ApplyAllSplit(before, effects[..k], [e]);
        assert [e][1..] == [];
        left := left - 1;
        disk := Apply(disk, e);
      }
    }

    /** Edit the root's document; `None` when the old files cannot be folded into it. */
    method FoldRoot(root: Root) returns (folded: Option<(Doc, bool)>)
      requires root.Root? && !(root.net.Missing? && root.embedding.Missing?)
      ensures RootPlan(root, netOk) == if folded.None? then Plan([], false)
              else Plan(RootOperations(root, folded.value.0, folded.value.1), true)
    {
      if root.config.NotToml? {
        return None;
      }
      var doc := DocOf(root.config);
      var oldNet := if "net" in doc then Missing else root.net;
      var oldEmbedding := if "embed" in doc then Missing else root.embedding;
      if oldNet.NotToml? || oldEmbedding.NotToml? {
        return None;
      }
      var changed := false;
      if oldNet.Toml? {
        doc := doc["net" := Table(oldNet.doc)];
        changed := true;
      }
      if oldEmbedding.Toml? {
        var embed := FoldModels(oldEmbedding.doc);
        if embed.None? {
          return None;
        }
        doc := doc["embed" := Table(embed.value)];
        changed := true;
      }
      if changed && !ConfigOk(doc, netOk) {
        return None;
      }
      folded := Some((doc, changed));
    }

    /** The slots of a root's format-1 `embedding.toml`, moved one by one. */
    method FoldModels(v1: Doc) returns (embed: Option<Doc>)
      ensures embed == if NotATable(v1, "local") || NotATable(v1, "remote") then None else Some(RootEmbed(v1))
    {
      var moved: Doc := map[];
      if NotATable(v1, "local") {
        return None;
      }
      if "local" in v1 {
        moved := moved["local" := Table(WithLocalModel(v1["local"].entries))];
      }
      if NotATable(v1, "remote") {
        return None;
      }
      if "remote" in v1 {
        moved := moved["remote" := v1["remote"]];
      }
      embed := Some(moved);
    }

    /** Performs as much of `RootPlan` as there is power for. */
    method MigrateWorkgroup() returns (ended: Ended)
      requires disk.root.Root?
      modifies this
      ensures Performed(old(disk), old(left), RootPlan(old(disk.root), netOk), ended)
    {
      hide Apply, ApplyAll, RootPlan;
      ghost var before, power, k := disk, left, 0;
      StartsReached();
      var root := disk.root;
      if root.net.Missing? && root.embedding.Missing? {
        assert RootPlan(root, netOk) == Plan([], true) by { NothingToMigrate(root, netOk); }
        return Finished;
      }
      var folded := FoldRoot(root);
      if folded.None? {
        return Failed;
      }
      var (doc, changed) := folded.value;
      ghost var effects := RootOperations(root, doc, changed);
      if changed {
        var on := Do(WriteRoot(doc), before, power, effects, k);
        if !on {
          return Stopped;
        }
        k := k + 1;
      }
      if !root.net.Missing? {
        var on := Do(DropRootNet, before, power, effects, k);
        if !on {
          return Stopped;
        }
        k := k + 1;
      }
      if !root.embedding.Missing? {
        var on := Do(DropRootEmbedding, before, power, effects, k);
        if !on {
          return Stopped;
        }
        k := k + 1;
      }
      ended := Finished;
    }

    /** Carry out `PromotePlan`, the root's own plan first. */
    method PromoteModels(local: Option<Doc>, remote: Option<Doc>) returns (ended: Ended, moved: bool)
      modifies this
      ensures var p := PromotePlan(old(disk.root), local, remote, netOk);
              Performed(old(disk), old(left), Plan(p.effects, p.ok), ended) && (ended.Finished? ==> moved == p.moved)
    {
      hide Apply, ApplyAll, RootPlan, ConfigOk;
      ghost var before, power := disk, left;
      StartsReached();
      if !disk.root.Root? || !disk.root.config.Missing? {
        return Finished, false;
      }
      ghost var root := disk.root;
      ghost var first := RootPlan(root, netOk);
      RootPlanOnRoot(root, netOk);
      var migrated := MigrateWorkgroup();
      ghost var p := PromotePlan(root, local, remote, netOk);
      assert first.effects <= p.effects;
      StopsEarly(before, first.effects, p.effects);
      if migrated.Stopped? {
        return Stopped, false;
      }
      if migrated.Failed? {
        return Finished, false;
      }
      assert first.effects[..|first.effects|] == first.effects;
      RootEffects(before, Disk(Missing, Missing, Missing, Missing, Missing, root), first.effects);
      var doc := DocOf(disk.root.config);
      if "embed" in doc {
        assert p.effects == first.effects;
        return Finished, false;
      }
      var embed: Doc := map[];
      if local.Some? {
        embed := embed["local" := Table(local.value)];
      }
      if remote.Some? {
        embed := embed["remote" := Table(remote.value)];
      }
      doc := doc["embed" := Table(embed)];
      if !ConfigOk(doc, netOk) {
        assert p.effects == first.effects;
        return Failed, false;
      }
      assert p.effects == first.effects + [WriteRoot(doc)];
      var on := Do(WriteRoot(doc), before, power, p.effects, |first.effects|);
      if !on {
        return Stopped, false;
      }
      return Finished, true;
    }

    /** Performs as much of `DevicePlan` as there is power for. */
    method MigrateDevice() returns (ended: Ended)
      modifies this
      ensures Performed(old(disk), old(left), DevicePlan(old(disk), netOk), ended)
    {
      hide Apply, ApplyAll, PromotePlan, ConfigOk, Finish, FoldEmbedding, Readable;
      ghost var before, power := disk, left;
      StartsReached();
      var oldNet, oldEmbedding, config := disk.net, disk.embedding, disk.config;
      if oldNet.Missing? && oldEmbedding.Missing? {
        return Finished;
      }
      if oldNet.NotToml? || oldEmbedding.NotToml? || config.NotToml? {
        return Failed;
      }
      var doc := DocOf(config);
      if oldNet.Toml? && "net" !in doc {
        doc := doc["net" := Table(oldNet.doc)];
      }
      ghost var done: seq<Effect> := [];
      if oldEmbedding.Toml? {
        var v1 := oldEmbedding.doc;
        if !Readable(v1) {
          return Failed;
        }
        var slots := SlotsOf(v1);
        var moved := false;
        if slots.HasModels() {
          ghost var p := PromotePlan(disk.root, slots.modelLocal, slots.modelRemote, netOk);
          var promoted: Ended;
          promoted, moved := PromoteModels(slots.modelLocal, slots.modelRemote);
          done := p.effects;
          PromotionFirst(before, netOk);
          StopsEarly(before, p.effects, DevicePlan(before, netOk).effects);
          PromotesOnRoot(before.root, slots.modelLocal, slots.modelRemote, netOk);
          RootEffects(before, Disk(Missing, Missing, Missing, Missing, Missing, before.root), p.effects);
          assert p.effects[..|p.effects|] == p.effects;
          if !promoted.Finished? {
            return promoted;
          }
        }
        if NotATable(doc, "embed") {
          return Failed;
        }
        var local := if moved then slots.local else Joined(slots.local, slots.modelLocal);
        var remote := if moved then slots.remote else Joined(slots.remote, slots.modelRemote);
        doc := FoldDevice(doc, v1, local, remote);
      }
      ended := WriteAndRetire(doc, before, power, done);
    }

    /** `[embed]` edited in place: what the old file says, where `config.toml` says nothing. */
    method FoldDevice(before: Doc, v1: Doc, local: Option<Doc>, remote: Option<Doc>) returns (doc: Doc)
      requires !NotATable(before, "embed")
      ensures doc == FoldEmbedding(before, v1, local, remote)
    {
      doc := before;
      var created := "embed" !in doc;
      if created {
        doc := doc["embed" := Table(map[])];
      }
      var embed := doc["embed"].entries;
      if "cache_dir" !in embed && "cache_dir" in v1 {
        embed := embed["cache_dir" := v1["cache_dir"]];
      }
      var slots := [("local", local), ("remote", remote)];
      ghost var start := embed;
      for i := 0 to 2
        invariant embed == if i == 0 then start else if i == 1 then PutIfAbsent(start, "local", local)
                           else PutIfAbsent(PutIfAbsent(start, "local", local), "remote", remote)
      {
        var (slot, table) := slots[i];
        if table.Some? && slot !in embed {
          embed := embed[slot := Table(table.value)];
        }
      }
      doc := doc["embed" := Table(embed)];
      if created && embed == map[] {
        doc := doc - {"embed"};
      }
    }

    /** Check the new document, write it, and only then retire the old files. */
    method WriteAndRetire(doc: Doc, ghost before: Disk, ghost power: nat, ghost done: seq<Effect>)
      returns (ended: Ended)
      requires Reached(before, power, done, |done|)
      requires disk.net == before.net && disk.embedding == before.embedding
      modifies this
      ensures Performed(before, power, Finish(before, done, doc, netOk), ended)
    {
      hide Apply, ApplyAll, ConfigOk;
      var net, embedding := disk.net, disk.embedding;
      ghost var effects := Finish(before, done, doc, netOk).effects;
      ghost var k := |done|;
      StopsEarly(before, done, effects);
      if !ConfigOk(doc, netOk) {
        return Failed;
      }
      var on := Do(WriteConfig(doc), before, power, effects, k);
      if !on {
        return Stopped;
      }
      k := k + 1;
      if !net.Missing? {
        on := Do(RetireNet, before, power, effects, k);
        if !on {
          return Stopped;
        }
        k := k + 1;
      }
      if !embedding.Missing? {
        on := Do(RetireEmbedding, before, power, effects, k);
        if !on {
          return Stopped;
        }
        k := k + 1;
      }
      ended := Finished;
    }

    /** What was reached of a first part was reached of the whole. */
    lemma StopsEarly(before: Disk, first: seq<Effect>, whole: seq<Effect>)
      ensures first <= whole ==> forall power: nat, k: nat | k <= |first| :: Reached(before, power, first, k) <==>
          Reached(before, power, whole, k)
    {
      if first <= whole {
        assert forall k: nat | k <= |first| :: first[..k] == whole[..k];
      }
    }

    lemma StartsReached()
      ensures forall effects :: Reached(disk, left, effects, 0)
    {
      assert forall effects: seq<Effect> :: effects[..0] == [];
    }
  }
}
