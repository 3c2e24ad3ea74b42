/** Two processes migrating one bridge directory, their file operations in any order. */
module MigrationTogether {
  import opened Wrappers
  import opened Documents
  import opened EmbedSettings
  import opened ConfigFile
  import opened MigrationSafety

  /** `c` is the operations of `a` and those of `b`, each in its order, in turns of any length. */
  ghost predicate Interleaves(a: seq<Effect>, b: seq<Effect>, c: seq<Effect>)
    decreases |c|
  {
    if c == [] then a == [] && b == []
    else
      || (a != [] && a[0] == c[0] && Interleaves(a[1..], b, c[1..]))
      || (b != [] && b[0] == c[0] && Interleaves(a, b[1..], c[1..]))
  }

  /** The last document written to the device's `config.toml`. */
  function LastConfig(effects: seq<Effect>): Option<Doc> {
    if effects == [] then None
    else
      var later := LastConfig(effects[1..]);
      if later.None? && effects[0].WriteConfig? then Some(effects[0].doc) else later
  }

  /** The last document written to the root's. */
  function LastRoot(effects: seq<Effect>): Option<Doc> {
    if effects == [] then None
    else
      var later := LastRoot(effects[1..]);
      if later.None? && effects[0].WriteRoot? then Some(effects[0].doc) else later
  }

  function Written(f: File, doc: Option<Doc>): File {
    if doc.Some? then Toml(doc.value) else f
  }

  function Gone(f: File, effects: seq<Effect>, e: Effect): File {
    if e in effects then Missing else f
  }

  function Aside(f: File, v1: File, effects: seq<Effect>, e: Effect): File {
    if e in effects && !f.Missing? then f else v1
  }

  /** What operations come to, file by file: only the last write to a file counts, and whether it is removed. */
  function FileByFile(d: Disk, effects: seq<Effect>): Disk {
    Disk(Written(d.config, LastConfig(effects)),
         Gone(d.net, effects, RetireNet), Gone(d.embedding, effects, RetireEmbedding),
         Aside(d.net, d.netV1, effects, RetireNet),
         Aside(d.embedding, d.embeddingV1, effects, RetireEmbedding),
         if !d.root.Root? then d.root
         else Root(Written(d.root.config, LastRoot(effects)),
                   Gone(d.root.net, effects, DropRootNet), Gone(d.root.embedding, effects, DropRootEmbedding)))
  }

  lemma FirstOfMany(d: Disk, e: Effect, effects: seq<Effect>)
    requires effects != [] && e == effects[0]
    ensures FileByFile(d, effects) == FileByFile(Apply(d, e), effects[1..])
  {
    var rest := effects[1..];
    forall x ensures x in effects <==> x == e || x in rest {
      assert effects == [e] + rest;
    }
    var config, root := LastConfig(rest), LastRoot(rest);
    assert LastConfig(effects) == if config.None? && e.WriteConfig? then Some(e.doc) else config;
    assert LastRoot(effects) == if root.None? && e.WriteRoot? then Some(e.doc) else root;
    hide LastConfig, LastRoot;
    match e
    case WriteConfig(doc) =>
    case RetireNet =>
    case RetireEmbedding =>
    case WriteRoot(doc) =>
    case DropRootNet =>
    case DropRootEmbedding =>
  }

  lemma {:induction false} AppliedFileByFile(d: Disk, effects: seq<Effect>)
    ensures ApplyAll(d, effects) == FileByFile(d, effects)
    decreases |effects|
  {
    hide Apply;
    if effects != [] {
      FirstOfMany(d, effects[0], effects);
      AppliedFileByFile(Apply(d, effects[0]), effects[1..]);
    }
  }

  lemma {:induction false} LastOfEither(a: seq<Effect>, b: seq<Effect>, c: seq<Effect>)
    requires Interleaves(a, b, c)
    ensures LastConfig(c) in {LastConfig(a), LastConfig(b)}
    ensures LastConfig(c).None? ==> LastConfig(a).None? && LastConfig(b).None?
    ensures LastRoot(c) in {LastRoot(a), LastRoot(b)}
    ensures LastRoot(c).None? ==> LastRoot(a).None? && LastRoot(b).None?
    ensures forall e :: e in c <==> e in a || e in b
    decreases |c|
  {
    if c != [] {
      assert c == [c[0]] + c[1..];
      if a != [] && a[0] == c[0] && Interleaves(a[1..], b, c[1..]) {
        assert a == [a[0]] + a[1..];
        LastOfEither(a[1..], b, c[1..]);
      } else {
        assert b == [b[0]] + b[1..];
        LastOfEither(a, b[1..], c[1..]);
      }
    }
  }

  /**
   * The other run, begun when this one has done some of its part, leaves the root alone and says
   * the same of the device.
   */
  lemma TheOtherRun(disk: Disk, k: nat, netOk: Item -> bool)
    requires DevicePlan(disk, netOk).ok && FormatOne(disk)
    requires 0 < k <= |DevicePlan(disk, netOk).effects|
    ensures var again := Stopped(disk, k, netOk);
            var effects := DevicePlan(again, netOk).effects;
            && (forall i | 0 <= i < |effects| :: !OnRoot(effects[i]))
            && Migrated(again, netOk).config.Toml? && Migrated(disk, netOk).config.Toml?
            && (!Promotes(disk, netOk) ==> Migrated(again, netOk).config == Migrated(disk, netOk).config)
            && Settings(DeviceEmbed(Migrated(again, netOk).config))
               == Settings(DeviceEmbed(Migrated(disk, netOk).config))
  {
    hide DevicePlan, PromotePlan, ConfigOk, FoldEmbedding, FoldNet, EmbedOk, DeviceKeys, NotATable, RootPlan, FormatOne,
         Settings, DeviceEmbed, OnRoot;
    var again, done := Stopped(disk, k, netOk), Migrated(disk, netOk);
    if !Pending(disk) {
      NothingPending(disk, netOk);
      assert false;
    } else {
      EmbedIsATable(disk, netOk);
      PlanShape(disk, netOk);
      StoppedShape(disk, k, netOk);
      MigratedShape(disk, netOk);
      var p := RootPart(disk, netOk);
      assert p[..|p|] == p;
      if disk.embedding.Toml? {
        PromotesOnlyIntoFormatOne(disk, netOk);
        if again.embedding.Toml? {
          PromotionIsOver(disk, again, netOk, if k <= |p| then k else |p|);
        }
      }
      if Pending(again) {
        RerunKeepsTheDevice(disk, again, netOk);
        PlanShape(again, netOk);
        assert RootPart(again, netOk) == [];
        OnlyTheDevice(again, Folded(again, Promotes(again, netOk)));
        SettingsAreDeviceKeys(DocOf(Migrated(again, netOk).config), netOk);
        SettingsAreDeviceKeys(DocOf(done.config), netOk);
      } else {
        NothingPending(again, netOk);
      }
    }
  }

  lemma OnlyTheDevice(disk: Disk, doc: Doc)
    ensures var effects := [WriteConfig(doc)] + Retirements(disk);
            forall i | 0 <= i < |effects| :: !OnRoot(effects[i])
  {
  }

  /**
   * One run reads its files and does `k` operations; another then reads its own and both go on,
   * their operations interleaved in any way. They leave what one uninterrupted run leaves, but for
   * the device's document, and that says the same: here no models are lost.
   */
  lemma TwoRunsAreOne(disk: Disk, k: nat, c: seq<Effect>, keySet: bool, avx2: bool, netOk: Item -> bool)
    requires DevicePlan(disk, netOk).ok && FormatOne(disk) && k <= |DevicePlan(disk, netOk).effects|
    requires Interleaves(DevicePlan(disk, netOk).effects[k..],
                 DevicePlan(Stopped(disk, k, netOk), netOk).effects, c)
    ensures var end := ApplyAll(Stopped(disk, k, netOk), c);
            && end == Migrated(disk, netOk).(config := end.config)
            && SameMeaning(Load(end, keySet, avx2, netOk), Load(Migrated(disk, netOk), keySet, avx2, netOk))
  {
    hide DevicePlan, Load, FormatOne, Interleaves, Settings, DeviceEmbed, LastConfig, LastRoot, Promotes, OnRoot;
    var plan := DevicePlan(disk, netOk).effects;
    var again, done := Stopped(disk, k, netOk), Migrated(disk, netOk);
    var a, b := plan[k..], DevicePlan(again, netOk).effects;
    var end := ApplyAll(again, c);
    assert plan == plan[..k] + a;
    ApplyAllSplit(disk, plan[..k], a);
    AppliedFileByFile(again, a);
    AppliedFileByFile(again, b);
    AppliedFileByFile(again, c);
    LastOfEither(a, b, c);
    assert done == ApplyAll(again, a);
    if k == 0 {
      assert plan[..0] == [] && a == plan;
      assert end.config == done.config;
      LoadReads(end, done, keySet, avx2, netOk);
    } else {
      TheOtherRun(disk, k, netOk);
      NotOnRoot(b);
      OldFilesAreKept(disk, netOk);
      assert end.root == done.root;
      assert end.config == done.config || end.config == Migrated(again, netOk).config;
      if end.config == done.config {
        LoadReads(end, done, keySet, avx2, netOk);
      } else {
        PromotesUnderARoot(disk, netOk);
        UnderAWorkgroup(end, done, keySet, avx2, netOk);
      }
    }
  }

  lemma {:induction false} NotOnRoot(effects: seq<Effect>)
    requires forall i | 0 <= i < |effects| :: !OnRoot(effects[i])
    ensures LastRoot(effects).None? && DropRootNet !in effects && DropRootEmbedding !in effects
    decreases |effects|
  {
    if effects != [] {
      NotOnRoot(effects[1..]);
    }
  }

  lemma PromotesUnderARoot(disk: Disk, netOk: Item -> bool)
    requires DevicePlan(disk, netOk).ok && Promotes(disk, netOk)
    ensures Migrated(disk, netOk).root.Root?
  {
    PromotesExactlyWhatIsOffered(disk, netOk);
  }
}
