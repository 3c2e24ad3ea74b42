/** A settings document as its keys and tables: layout and comments are not looked at. */
module Documents {
  datatype Leaf = Text(text: string) | Number(number: int) | Flag(flag: bool) | Other

  datatype Item = Value(leaf: Leaf) | Table(entries: map<string, Item>)

  type Doc = map<string, Item>

  datatype File = Missing | NotToml | Toml(doc: Doc)
}

/** What the embedding settings resolve to. */
module EmbedSettings {
  import opened Wrappers
  import opened Documents
  import Chars = Text

  const LOCAL_MODEL := "Qwen/Qwen3-VL-Embedding-2B"
  const MAX_TOKENS := 8192
  const DEFAULT_DIMENSION := 1024
  const DEFAULT_MAX_TOKENS := 1024
  const QTYPES := {"f32", "f16", "q8_0", "q4_k"}
  const DEFAULT_QTYPE := "f16"

  datatype Problem = NotReadable | BadTable | MissingField(field: string) | BadField(field: string)

  // ----- `[embed]`, typed -----

  datatype LocalTable = LocalTable(enabled: Option<bool>, model: Option<string>, dimension: Option<int>,
      maxTokens: Option<int>, qtype: Option<string>)

  datatype RemoteTable = RemoteTable(enabled: Option<bool>, endpoint: Option<string>, model: Option<string>,
      dimension: Option<int>)

  datatype EmbedTable = EmbedTable(cacheDir: Option<string>, local: Option<LocalTable>, remote: Option<RemoteTable>)

  const NO_EMBED := EmbedTable(None, None, None)

  function FlagAt(t: Doc, key: string): Option<bool> {
    if key in t && t[key].Value? && t[key].leaf.Flag? then Some(t[key].leaf.flag) else None
  }

  function TextAt(t: Doc, key: string): Option<string> {
    if key in t && t[key].Value? && t[key].leaf.Text? then Some(t[key].leaf.text) else None
  }

  function NumberAt(t: Doc, key: string): Option<int> {
    if key in t && t[key].Value? && t[key].leaf.Number? then Some(t[key].leaf.number) else None
  }

  /** The item under `key`, if any, has the type its name asks for. */
  predicate KeyOk(t: Doc, key: string) {
    key in t ==>
      match key
      case "enabled" => FlagAt(t, key).Some?
      case "dimension" => NumberAt(t, key).Some? && 0 <= NumberAt(t, key).value < 0x1_0000_0000
      case "max_tokens" => NumberAt(t, key).Some? && 0 <= NumberAt(t, key).value < 0x8000_0000_0000_0000
      case "qtype" => TextAt(t, key).Some? && TextAt(t, key).value in QTYPES
      case _ => TextAt(t, key).Some?
  }

  const LOCAL_KEYS := {"enabled", "model", "dimension", "max_tokens", "qtype"}
  const REMOTE_KEYS := {"enabled", "endpoint", "model", "dimension"}

  predicate SlotOk(t: Doc, keys: set<string>) {
    t.Keys <= keys && forall key | key in t :: KeyOk(t, key)
  }

  predicate EmbedOk(t: Doc) {
    && t.Keys <= {"cache_dir", "local", "remote"}
    && KeyOk(t, "cache_dir")
    && ("local" in t ==> t["local"].Table? && SlotOk(t["local"].entries, LOCAL_KEYS))
    && ("remote" in t ==> t["remote"].Table? && SlotOk(t["remote"].entries, REMOTE_KEYS))
  }

  function ReadLocal(t: Doc): LocalTable {
    LocalTable(FlagAt(t, "enabled"), TextAt(t, "model"), NumberAt(t, "dimension"), NumberAt(t, "max_tokens"),
        TextAt(t, "qtype"))
  }

  function ReadRemote(t: Doc): RemoteTable {
    RemoteTable(FlagAt(t, "enabled"), TextAt(t, "endpoint"), TextAt(t, "model"), NumberAt(t, "dimension"))
  }

  function SubTable(t: Doc, key: string): Option<Doc> {
    if key in t && t[key].Table? then Some(t[key].entries) else None
  }

  function ReadEmbed(t: Doc): EmbedTable {
    EmbedTable(TextAt(t, "cache_dir"),
               match SubTable(t, "local") { case None => None case Some(s) => Some(ReadLocal(s)) },
               match SubTable(t, "remote") { case None => None case Some(s) => Some(ReadRemote(s)) })
  }

  /** The embedding table a file holds, typed; its other tables are not looked at. */
  function ReadEmbedTable(file: File): Result<Option<EmbedTable>, Problem> {
    match file
    case Missing => Ok(None)
    case NotToml => Err(NotReadable)
    case Toml(doc) =>
      if "embed" !in doc then Ok(Some(NO_EMBED))
      else if doc["embed"].Table? && EmbedOk(doc["embed"].entries) then Ok(Some(ReadEmbed(doc["embed"].entries)))
      else Err(BadTable)
  }

  // ----- reading what would be written -----

  function Put(t: Doc, key: string, leaf: Option<Leaf>): Doc {
    if leaf.Some? then t[key := Value(leaf.value)] else t
  }

  function Flagged(flag: Option<bool>): Option<Leaf> {
    if flag.Some? then Some(Flag(flag.value)) else None
  }

  function Worded(text: Option<string>): Option<Leaf> {
    if text.Some? then Some(Leaf.Text(text.value)) else None
  }

  function Numbered(number: Option<int>): Option<Leaf> {
    if number.Some? then Some(Number(number.value)) else None
  }

  /** The two slots as tables, key by key. */
  function LocalDoc(t: LocalTable): Doc {
    Put(Put(Put(Put(Put(map[], "enabled", Flagged(t.enabled)), "model", Worded(t.model)),
                "dimension", Numbered(t.dimension)), "max_tokens", Numbered(t.maxTokens)), "qtype", Worded(t.qtype))
  }

  function RemoteDoc(t: RemoteTable): Doc {
    Put(Put(Put(Put(map[], "enabled", Flagged(t.enabled)), "endpoint", Worded(t.endpoint)),
            "model", Worded(t.model)), "dimension", Numbered(t.dimension))
  }

  /** A dimension is an unsigned number of 32 bits, a limit of tokens one that fits a signed one of 64. */
  predicate InRange(number: Option<int>, bits: int) {
    number.Some? ==> 0 <= number.value <= bits
  }

  /** Written down key by key, a slot reads back as it was; and it is well typed exactly within these bounds. */
  lemma LocalReadsBack(t: LocalTable)
    ensures ReadLocal(LocalDoc(t)) == t
    ensures SlotOk(LocalDoc(t), LOCAL_KEYS) <==>
            && InRange(t.dimension, 4294967295) && InRange(t.maxTokens, 9223372036854775807)
            && (t.qtype.Some? ==> t.qtype.value in {"f32", "f16", "q8_0", "q4_k"})
  {
    var doc := LocalDoc(t);
    assert forall key | key in doc :: key in LOCAL_KEYS;
    assert t.dimension.Some? ==> "dimension" in doc && doc["dimension"] == Value(Number(t.dimension.value));
    assert t.maxTokens.Some? ==> "max_tokens" in doc && doc["max_tokens"] == Value(Number(t.maxTokens.value));
    assert t.qtype.Some? ==> "qtype" in doc && doc["qtype"] == Value(Leaf.Text(t.qtype.value));
  }

  lemma RemoteReadsBack(t: RemoteTable)
    ensures ReadRemote(RemoteDoc(t)) == t
    ensures SlotOk(RemoteDoc(t), REMOTE_KEYS) <==> InRange(t.dimension, 4294967295)
  {
    var doc := RemoteDoc(t);
    assert forall key | key in doc :: key in REMOTE_KEYS;
    assert t.dimension.Some? ==> "dimension" in doc && doc["dimension"] == Value(Number(t.dimension.value));
  }

  // ----- the model slots -----

  datatype LocalModel = LocalModel(model: string, dimension: int, maxTokens: int)

  datatype RemoteModel = RemoteModel(endpoint: string, model: string, dimension: int)

  datatype ModelSettings = ModelSettings(local: Option<LocalModel>, remote: Option<RemoteModel>) {
    predicate IsEmpty() {
      local.None? && remote.None?
    }

    function Validate(): Option<Problem> {
      if local.Some? && local.value.model != LOCAL_MODEL then Some(BadField("local.model"))
      else if local.Some? && !(64 <= local.value.dimension <= 2048) then Some(BadField("local.dimension"))
      else if local.Some? && !(1 <= local.value.maxTokens <= MAX_TOKENS) then Some(BadField("local.max_tokens"))
      else if remote.Some? && !("http://" <= remote.value.endpoint || "https://" <= remote.value.endpoint)
      then Some(BadField("remote.endpoint"))
      else if remote.Some? && Chars.Blank(remote.value.model) then Some(BadField("remote.model"))
      else if remote.Some? && remote.value.dimension == 0 then Some(BadField("remote.dimension"))
      else None
    }
  }

  const NO_MODELS := ModelSettings(None, None)

  function Default<T>(o: Option<T>, d: T): T {
    if o.Some? then o.value else d
  }

  /** The model slots a table configures, checked. */
  function Models(t: EmbedTable): Result<ModelSettings, Problem> {
    var local := if t.local.Some? && t.local.value.model.Some?
                 then Some(LocalModel(t.local.value.model.value,
                                      Default(t.local.value.dimension, DEFAULT_DIMENSION),
                                      Default(t.local.value.maxTokens, DEFAULT_MAX_TOKENS)))
                 else None;
    if t.remote.Some? && t.remote.value.endpoint.Some? && t.remote.value.model.None?
    then Err(MissingField("remote.model"))
    else if t.remote.Some? && t.remote.value.endpoint.Some? && t.remote.value.dimension.None?
    then Err(MissingField("remote.dimension"))
    else if t.remote.Some? && t.remote.value.endpoint.None?
        && (t.remote.value.model.Some? || t.remote.value.dimension.Some?) then
      Err(MissingField("remote.endpoint"))
    else
      var remote := if t.remote.Some? && t.remote.value.endpoint.Some?
                    then Some(RemoteModel(t.remote.value.endpoint.value, t.remote.value.model.value,
                        t.remote.value.dimension.value))
                    else None;
      var models := ModelSettings(local, remote);
      match models.Validate()
      case Some(problem) => Err(problem)
      case None => Ok(models)
  }

  // ----- resolving -----

  datatype Source = Workgroup | Device

  datatype Slot = Local | Remote

  datatype Note = NotConfigured | DisabledOnDevice | NoAvx2 | KeyMissing | Invalid(why: Problem)

  datatype DeviceSettings = DeviceSettings(localEnabled: Option<bool>, remoteEnabled: Option<bool>,
      cacheDir: Option<string>, localQtype: Option<string>)

  datatype Resolved = Resolved(
    models: ModelSettings,
    source: Option<Source>,
    shadowed: bool,
    device: DeviceSettings,
    localEnabled: bool,
    remoteEnabled: bool,
    active: Option<Slot>,
    localQtype: string,
    avx2: bool,
    keySet: bool,
    note: Option<Note>)

  function Settings(device: EmbedTable): DeviceSettings {
    DeviceSettings(if device.local.Some? then device.local.value.enabled else None,
                   if device.remote.Some? then device.remote.value.enabled else None,
                   device.cacheDir,
                   if device.local.Some? then device.local.value.qtype else None)
  }

  /** The settings in effect. `shared` is what the workgroup gives, if there is one. */
  function Resolve(shared: Option<Result<ModelSettings, Problem>>, device: EmbedTable, keySet: bool,
                   avx2: bool): Resolved {
    var own := Models(device);
    var ownConfigured := own != Ok(NO_MODELS);
    var (models, source, shadowed, invalid) :=
      match shared {
        case Some(Ok(m)) => (m, Some(Workgroup), ownConfigured, None)
        case Some(Err(why)) => (NO_MODELS, Some(Workgroup), ownConfigured, Some(why))
        case None =>
          match own {
            case Ok(m) => (m, if m.IsEmpty() then None else Some(Device), false, None)
            case Err(why) => (NO_MODELS, Some(Device), false, Some(why))
          }
      };
    var broken := if invalid.Some? then invalid else models.Validate();
    var settings := Settings(device);
    var localEnabled := broken.None? && models.local.Some? && Default(settings.localEnabled, avx2);
    var remoteEnabled := broken.None? && models.remote.Some? && Default(settings.remoteEnabled, true);
    var active := if remoteEnabled then Some(Remote) else if localEnabled then Some(Local) else None;
    var note :=
      if broken.Some? then Some(Invalid(broken.value))
      else if models.IsEmpty() then Some(NotConfigured)
      else if active.None?
      then Some(if models.remote.None? && settings.localEnabled.None? && !avx2 then NoAvx2 else DisabledOnDevice)
      else if active == Some(Remote) && !keySet then Some(KeyMissing)
      else None;
    Resolved(models, source, shadowed, settings, localEnabled, remoteEnabled, active,
        Default(settings.localQtype, DEFAULT_QTYPE), avx2, keySet, note)
  }

  // ----- what resolving promises -----

  /**
   * Under a workgroup its models are in effect, even none: what this host's own tables say of
   * models changes nothing but the `shadowed` flag, which is set when they say anything.
   */
  lemma TheWorkgroupsModelsWin(shared: Result<ModelSettings, Problem>, device: EmbedTable, other: EmbedTable,
                               keySet: bool, avx2: bool)
    requires Settings(device) == Settings(other)
    ensures var r := Resolve(Some(shared), device, keySet, avx2);
            && r.source == Some(Workgroup)
            && r.models == (if shared.Ok? then shared.value else NO_MODELS)
            && r == Resolve(Some(shared), other, keySet, avx2).(shadowed := r.shadowed)
            && (r.shadowed <==> Models(device) != Ok(NO_MODELS))
  {
  }

  /**
   * Which slot serves, from the models in effect and this device's switches: the remote one when
   * it is configured and not switched off, also with both on; else the local one, when it is
   * configured and switched on, by hand or by there being AVX2. Broken models serve nothing.
   */
  lemma WhichSlotServes(shared: Option<Result<ModelSettings, Problem>>, device: EmbedTable, keySet: bool, avx2: bool)
    ensures var r := Resolve(shared, device, keySet, avx2);
            var broken := r.note.Some? && r.note.value.Invalid?;
            var remote := !broken && r.models.remote.Some? && r.device.remoteEnabled != Some(false);
            var local := !broken && r.models.local.Some?
                         && (r.device.localEnabled == Some(true) || (r.device.localEnabled.None? && avx2));
            && r.active == (if remote then Some(Remote) else if local then Some(Local) else None)
            && (r.note == Some(KeyMissing) <==> r.active == Some(Remote) && !keySet)
            && (r.active.Some? ==> r.note.None? || r.note == Some(KeyMissing))
            && (r.active.None? ==> r.note.Some?)
            && (r.note == Some(NotConfigured) <==> !broken && r.models == NO_MODELS)
            && (r.note == Some(NoAvx2) <==>
                  !broken && r.models.local.Some? && r.models.remote.None? && r.device.localEnabled.None? && !avx2)
  {
  }

  /** Models are checked before they are in effect; broken ones are none, and the note says so. */
  lemma TheModelsInEffect(shared: Option<Result<ModelSettings, Problem>>, device: EmbedTable, keySet: bool, avx2: bool)
    requires shared.Some? && shared.value.Ok? ==> shared.value.value.Validate().None?
    ensures var given := if shared.Some? then shared.value else Models(device);
            var r := Resolve(shared, device, keySet, avx2);
            && r.models == (if given.Ok? then given.value else NO_MODELS)
            && (given.Err? <==> r.note.Some? && r.note.value.Invalid?)
            && r.source == (if shared.Some? then Some(Workgroup)
                            else if given == Ok(NO_MODELS) then None else Some(Device))
            && (r.shadowed <==> shared.Some? && Models(device) != Ok(NO_MODELS))
            && r.device == Settings(device) && r.localQtype == Default(r.device.localQtype, DEFAULT_QTYPE)
  {
  }

  lemma CheckedModels(t: EmbedTable)
    ensures Models(t).Ok? ==> Models(t).value.Validate().None?
  {
  }
}
