/** The migration of the settings files from format 1 to format 2, one file operation at a time. */
module ConfigFile {
  import opened Wrappers
  import opened Documents
  import opened EmbedSettings

  /** A workgroup's root: none, one that cannot be opened, or its three settings files. */
  datatype Root = NoWorkgroup | Unopenable | Root(config: File, net: File, embedding: File)

  /** The bridge directory's settings files, its retired ones, and the workgroup's root. */
  datatype Disk = Disk(config: File, net: File, embedding: File, netV1: File, embeddingV1: File, root: Root)

  /** One write, rename or delete: what can be done before a stop, and what not. */
  datatype Effect =
    | WriteConfig(doc: Doc) | RetireNet | RetireEmbedding
    | WriteRoot(doc: Doc) | DropRootNet | DropRootEmbedding

  function Apply(disk: Disk, e: Effect): (r: Disk)
    ensures r.root.Root? == disk.root.Root?
  {
    match e
    case WriteConfig(doc) => disk.(config := Toml(doc))
    case RetireNet => if disk.net.Missing? then disk else disk.(netV1 := disk.net, net := Missing)
    case RetireEmbedding => if disk.embedding.Missing? then disk
      else disk.(embeddingV1 := disk.embedding, embedding := Missing)
    case WriteRoot(doc) => if disk.root.Root? then disk.(root := disk.root.(config := Toml(doc))) else disk
    case DropRootNet => if disk.root.Root? then disk.(root := disk.root.(net := Missing)) else disk
    case DropRootEmbedding => if disk.root.Root? then disk.(root := disk.root.(embedding := Missing)) else disk
  }

  function ApplyAll(disk: Disk, effects: seq<Effect>): (r: Disk)
    ensures r.root.Root? == disk.root.Root?
    decreases |effects|
  {
    if effects == [] then disk else ApplyAll(Apply(disk, effects[0]), effects[1..])
  }

  /** What one run does, in order, and whether it ends well. */
  datatype Plan = Plan(effects: seq<Effect>, ok: bool)

  // ----- tables -----

  /** A whole file as a settings file: known tables only, each of its type. `[net]`'s type is given. */
  predicate ConfigOk(doc: Doc, netOk: Item -> bool) {
    && doc.Keys <= {"net", "embed", "gui"}
    && ("net" in doc ==> netOk(doc["net"]))
    && ("embed" in doc ==> doc["embed"].Table? && EmbedOk(doc["embed"].entries))
    && ("gui" in doc ==> doc["gui"].Table?)
  }

  predicate NotATable(t: Doc, key: string) {
    key in t && !t[key].Table?
  }

  /** The table with the `model` key it may have left out. */
  function WithLocalModel(t: Doc): Doc {
    if "model" in t then t else t["model" := Value(Text(LOCAL_MODEL))]
  }

  /** The union of two tables that may be absent; on a shared key the model's entry is kept. */
  function Joined(switch: Option<Doc>, model: Option<Doc>): Option<Doc> {
    if switch.Some? && model.Some? then Some(switch.value + model.value)
    else if switch.Some? then switch else model
  }

  function MaybePut(t: Doc, key: string, entries: Option<Doc>): Doc {
    if entries.Some? then t[key := Table(entries.value)] else t
  }

  /** Put a table where there is none yet. */
  function PutIfAbsent(t: Doc, key: string, entries: Option<Doc>): Doc {
    if key in t then t else MaybePut(t, key, entries)
  }

  // ----- the root -----

  function DocOf(f: File): Doc {
    if f.Toml? then f.doc else map[]
  }

  function Named(local: Option<Doc>): Option<Doc> {
    if local.Some? then Some(WithLocalModel(local.value)) else None
  }

  /** `[embed]` of a root, from its format-1 file. */
  function RootEmbed(v1: Doc): Doc {
    MaybePut(MaybePut(map[], "local", Named(SubTable(v1, "local"))), "remote", SubTable(v1, "remote"))
  }

  /** What migrating a root takes: at most one write, and only after it the removals. */
  function RootPlan(root: Root, netOk: Item -> bool): Plan
    requires root.Root?
  {
    if root.net.Missing? && root.embedding.Missing? then Plan([], true)
    else if root.config.NotToml? then Plan([], false)
    else
      var doc := DocOf(root.config);
      var oldNet := if "net" in doc then Missing else root.net;
      var oldEmbedding := if "embed" in doc then Missing else root.embedding;
      if oldNet.NotToml? || oldEmbedding.NotToml? then Plan([], false)
      else if oldEmbedding.Toml? && (NotATable(oldEmbedding.doc, "local") || NotATable(oldEmbedding.doc, "remote"))
      then Plan([], false)
      else
        var withNet := if oldNet.Toml? then doc["net" := Table(oldNet.doc)] else doc;
        var next := if oldEmbedding.Toml? then withNet["embed" := Table(RootEmbed(oldEmbedding.doc))] else withNet;
        var changed := oldNet.Toml? || oldEmbedding.Toml?;
        if changed && !ConfigOk(next, netOk) then Plan([], false)
        else
          Plan((if changed then [WriteRoot(next)] else [])
               + (if root.net.Missing? then [] else [DropRootNet])
               + (if root.embedding.Missing? then [] else [DropRootEmbedding]), true)
  }

  datatype Promotion = Promotion(effects: seq<Effect>, ok: bool, moved: bool)

  /** The root's operations when a device offers it models: its own migration, then at most one more write. */
  function PromotePlan(root: Root, local: Option<Doc>, remote: Option<Doc>, netOk: Item -> bool): Promotion {
    if !root.Root? || !root.config.Missing? then Promotion([], true, false)
    else
      var first := RootPlan(root, netOk);
      if !first.ok then Promotion([], true, false)
      else
        var doc := DocOf(ApplyAll(Disk(Missing, Missing, Missing, Missing, Missing, root), first.effects).root.config);
        if "embed" in doc then Promotion(first.effects, true, false)
        else
          var next := doc["embed" := Table(MaybePut(MaybePut(map[], "local", local), "remote", remote))];
          if !ConfigOk(next, netOk) then Promotion(first.effects, false, false)
          else Promotion(first.effects + [WriteRoot(next)], true, true)
  }

  // ----- the device -----

  /** The slots of a format-1 `embedding.toml`: switches, and models, each possibly absent. */
  datatype Slots = Slots(local: Option<Doc>, remote: Option<Doc>, modelLocal: Option<Doc>, modelRemote: Option<Doc>) {
    predicate HasModels() {
      modelLocal.Some? || modelRemote.Some?
    }
  }

  predicate Readable(v1: Doc) {
    && !NotATable(v1, "local") && !NotATable(v1, "remote") && !NotATable(v1, "models")
    && var models := Default(SubTable(v1, "models"), map[]); !NotATable(models, "local") && !NotATable(models, "remote")
  }

  function SlotsOf(v1: Doc): Slots {
    var models := Default(SubTable(v1, "models"), map[]);
    Slots(SubTable(v1, "local"), SubTable(v1, "remote"), Named(SubTable(models, "local")), SubTable(models, "remote"))
  }

  /** `[embed]` of the device once the format-1 entries have been put where there were none. */
  function Merged(embed: Doc, v1: Doc, local: Option<Doc>, remote: Option<Doc>): Doc {
    var withCache := if "cache_dir" in embed || "cache_dir" !in v1 then embed
      else embed["cache_dir" := v1["cache_dir"]];
    PutIfAbsent(PutIfAbsent(withCache, "local", local), "remote", remote)
  }

  /** The device's document with the format-1 `embedding.toml` folded in. */
  function FoldEmbedding(doc: Doc, v1: Doc, local: Option<Doc>, remote: Option<Doc>): Doc
    requires !NotATable(doc, "embed")
  {
    var embed := Merged(Default(SubTable(doc, "embed"), map[]), v1, local, remote);
    if "embed" !in doc && embed == map[] then doc else doc["embed" := Table(embed)]
  }

  function FoldNet(doc: Doc, net: File): Doc {
    if net.Toml? && "net" !in doc then doc["net" := Table(net.doc)] else doc
  }

  /** A whole run over a bridge directory: the root's operations, then those of `Finish`. */
  function DevicePlan(disk: Disk, netOk: Item -> bool): Plan {
    if disk.net.Missing? && disk.embedding.Missing? then Plan([], true)
    else if disk.net.NotToml? || disk.embedding.NotToml? || disk.config.NotToml? then Plan([], false)
    else
      var doc := FoldNet(DocOf(disk.config), disk.net);
      if disk.embedding.Missing? then Finish(disk, [], doc, netOk)
      else if !Readable(disk.embedding.doc) then Plan([], false)
      else
        var slots := SlotsOf(disk.embedding.doc);
        var promotion := if slots.HasModels() then PromotePlan(disk.root, slots.modelLocal, slots.modelRemote, netOk)
                         else Promotion([], true, false);
        if !promotion.ok || NotATable(doc, "embed") then Plan(promotion.effects, false)
        else
          var local := if promotion.moved then slots.local else Joined(slots.local, slots.modelLocal);
          var remote := if promotion.moved then slots.remote else Joined(slots.remote, slots.modelRemote);
          Finish(disk, promotion.effects, FoldEmbedding(doc, disk.embedding.doc, local, remote), netOk)
  }

  /** Check the new document, write it, and only then retire the old files. */
  function Finish(disk: Disk, before: seq<Effect>, doc: Doc, netOk: Item -> bool): Plan {
    if !ConfigOk(doc, netOk) then Plan(before, false)
    else Plan(before + [WriteConfig(doc)]
              + (if disk.net.Missing? then [] else [RetireNet])
              + (if disk.embedding.Missing? then [] else [RetireEmbedding]), true)
  }

  // ----- what a bridge directory means -----

  /** The root as opening the workgroup leaves it: every open tries the root's migration first. */
  function Opened(root: Root, netOk: Item -> bool): (r: Root)
    requires root.Root?
    ensures r.Root?
  {
    ApplyAll(Disk(Missing, Missing, Missing, Missing, Missing, root), RootPlan(root, netOk).effects).root
  }

  function SharedModels(config: File): Result<ModelSettings, Problem> {
    match ReadEmbedTable(config)
    case Ok(None) => Ok(NO_MODELS)
    case Ok(Some(embed)) => Models(embed)
    case Err(why) => Err(why)
  }

  /** This host's `[embed]`; what cannot be read is the defaults. */
  function DeviceEmbed(config: File): EmbedTable {
    match ReadEmbedTable(config)
    case Ok(Some(embed)) => embed
    case _ => NO_EMBED
  }

  /** What a directory means: the function the migration is judged by. */
  function Load(disk: Disk, keySet: bool, avx2: bool, netOk: Item -> bool): Result<Resolved, Problem> {
    match disk.root
    case Unopenable => Err(NotReadable)
    case NoWorkgroup => Ok(Resolve(None, DeviceEmbed(disk.config), keySet, avx2))
    case Root(_, _, _) =>
      Ok(Resolve(Some(SharedModels(Opened(disk.root, netOk).config)), DeviceEmbed(disk.config), keySet, avx2))
  }
}
