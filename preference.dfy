/** The preference facade of the app (the Kotlin singleton `Prefs`): typed
    accessors over an embedded key-value store, three allow-lists of package
    names that are toggled one name at a time, a package-to-activity-type map
    with upsert, and a 24-hour gate that clears two image caches.

    The store is a map from keys to tagged values. A list or map that the
    facade saves as JSON text is kept here as the value it encodes; reading it
    back with the wrong shape is the "decode failed" case. The queries of the
    facade are functions of the current store; the operations that write to it
    are methods of the class `Prefs` at the end of this module. */
module Preference {
  import opened Lists

  /** Kotlin `Int` and `Long`. */
  newtype Int32 = x: int | -0x8000_0000 <= x < 0x8000_0000
  newtype Int64 = x: int | -0x8000_0000_0000_0000 <= x < 0x8000_0000_0000_0000

  const TwoTo64: int := 0x1_0000_0000_0000_0000

  datatype Option<T> = None | Some(value: T)

  /** The two exceptions the facade lets escape: `UnsupportedOperationException`
      from `set` and `get`, and the serialization exception of a JSON decode. */
  datatype Error = UnsupportedOperation | DecodeFailed

  datatype Result<T> = Ok(value: T) | Err(error: Error)

  /** A string held in the store. `JsonArray` and `JsonObject` stand for the
      JSON encoding of a list of strings and of a string-to-Int map; `Plain`
      is any other text, one that decodes as neither. */
  datatype Text =
    | Plain(s: string)
    | JsonArray(items: seq<string>)
    | JsonObject(entries: map<string, Int32>)

  /** A value of one of the types the store supports. A Float is kept as its
      IEEE-754 bit pattern and never interpreted. */
  datatype Value =
    | StringValue(text: Text)
    | IntValue(i: Int32)
    | BoolValue(b: bool)
    | FloatValue(bits: bv32)
    | LongValue(l: Int64)

  /** The argument of `set`, which accepts any Kotlin value: null (which passes
      the `String?` test), a supported value, or a value of another type. */
  datatype Arg = Null | Scalar(v: Value) | Unsupported

  /** The reified type argument of `get`. */
  datatype Kind = StringKind | IntKind | BoolKind | FloatKind | LongKind | OtherKind

  type Store = map<string, Value>

  function KindOf(v: Value): Kind {
    match v
    case StringValue(_) => StringKind
    case IntValue(_) => IntKind
    case BoolValue(_) => BoolKind
    case FloatValue(_) => FloatKind
    case LongValue(_) => LongKind
  }

  /** The value `get` falls back to when the caller gives no default:
      "" for String, -1 for Int, false for Boolean, -1f for Float, -1 for Long. */
  function Fallback(kind: Kind): (v: Value)
    requires kind != OtherKind
    ensures KindOf(v) == kind
  {
    match kind
    case StringKind => StringValue(Plain(""))
    case IntKind => IntValue(-1)
    case BoolKind => BoolValue(false)
    case FloatKind => FloatValue(0xBF80_0000)
    case LongKind => LongValue(-1)
  }

  // ---------------------------------------------------------------------
  // Keys

  const UserData: string := "user"
  const Token: string := "token"
  const UserId: string := "user-id"
  const UserBio: string := "user-bio"
  const UserNitro: string := "user-nitro"
  const LastRunConsoleRpc: string := "last_run_console_rpc"
  const LastRunCustomRpc: string := "last_run_custom_rpc"
  const Language: string := "language"
  const EnabledApps: string := "enabled_apps"
  const EnabledMediaApps: string := "enabled_media_apps"
  const EnabledExperimentalApps: string := "enabled_experimental_apps"
  const MediaRpcArtistName: string := "media_rpc_artist_name"
  const MediaRpcAlbumName: string := "media_rpc_album_name"
  const MediaRpcAppIcon: string := "media_rpc_app_icon"
  const MediaRpcEnableTimestamps: string := "enable_timestamps"
  const MediaRpcHideOnPause: string := "hide_on_pause"
  const MediaRpcShowPlaybackState: string := "show_playback_state"
  const MediaRpcShowSongAsTitle: string := "show_song_as_title"
  const UseRpcButtons: string := "use_saved_rpc_buttons"
  const RpcButtonsData: string := "saved_rpc_buttons_data"
  const RpcUseLowResIcon: string := "use_low_res_app_icons"
  const ConfigsDirectory: string := "configs_directory"
  const UseImgur: string := "use_imgur"
  const ImgurClientId: string := "imgur_client_id"
  const SavedImages: string := "saved_images"
  const SavedArtwork: string := "saved_artwork"
  const DarkTheme: string := "dark_theme_value"
  const HighContrast: string := "high_contrast"
  const DynamicColor: string := "dynamic_color"
  const ThemeColor: string := "theme_color"
  const CustomThemeColor: string := "custom_theme_color"
  const IsFirstLaunched: string := "is_first_launched"
  const CustomActivityType: string := "custom_activity_type"
  const ShowLogsInCompactMode: string := "logs_compact_mode"
  const LogsAutoScroll: string := "logs_auto_scroll"
  const PaletteStyle: string := "palette_style"
  const ApplyFieldsFromLastRunRpc: string := "enable_setting_from_last_config"
  const CustomActivityStatus: string := "custom_activity_status"
  const LatestRelease: string := "latest_release"
  const LastDeleted: string := "last_deleted"
  const CustomActivityApplicationId: string := "custom_activity_application_id_"
  const ExperimentalRpcUseAppsRpc: string := "experimental_rpc_use_apps"
  const ExperimentalRpcUseMediaRpc: string := "experimental_rpc_use_media"
  const ExperimentalRpcTemplateName: string := "experimental_rpc_template_name"
  const ExperimentalRpcTemplateDetails: string := "experimental_rpc_template_details"
  const ExperimentalRpcTemplateState: string := "experimental_rpc_template_state"
  const ExperimentalRpcAppActivityTypes: string := "experimental_rpc_app_activity_types"
  const ExperimentalRpcShowCoverArt: string := "experimental_rpc_show_cover_art"
  const ExperimentalRpcShowAppIcon: string := "experimental_rpc_show_app_icon"
  const ExperimentalRpcShowPlaybackState: string := "experimental_rpc_show_playback_state"
  const ExperimentalRpcEnableTimestamps: string := "experimental_rpc_enable_timestamps"
  const ExperimentalRpcHideOnPause: string := "experimental_rpc_hide_on_pause"

  /** The keys the modelled operations read or write. */
  const ModelledKeys: seq<string> := [
    EnabledApps, EnabledMediaApps, EnabledExperimentalApps,
    ExperimentalRpcAppActivityTypes, SavedImages, SavedArtwork, LastDeleted
  ]

  /** The keys the modelled operations touch name seven different entries,
      so writing one of them leaves the others as they were. */
  lemma ModelledKeysDistinct()
    ensures NoDup(ModelledKeys)
  {
    assert EnabledApps[0] != SavedImages[0];
    assert EnabledApps[0] != LastDeleted[0];
  }

  /** The media apps that count as enabled while no media allow-list has been
      saved, in the four groups the source lists them in. */
  const MusicStreamingApps: seq<string> := [
    "com.google.android.apps.youtube.music",
    "com.spotify.music",
    "com.google.android.music",
    "com.amazon.mp3",
    "com.apple.android.music",
    "com.soundcloud.android",
    "deezer.android.app",
    "com.jrtstudio.AnotherMusicPlayer",
    "com.pandora.android",
    "com.rhapsody",
    "com.sonyericsson.music",
    "com.aspiro.tidal"
  ]

  const MusicPlayerApps: seq<string> := [
    "com.sec.android.app.music",
    "com.tbig.playerpro"
  ]

  const VideoStreamingApps: seq<string> := [
    "com.google.android.apps.youtube.kids",
    "com.google.android.apps.youtube.unplugged",
    "com.google.android.youtube.googletv",
    "com.google.android.youtube.tv",
    "com.google.android.youtube",
    "com.netflix.mediaclient",
    "com.kick.mobile",
    "tv.twitch.android.app"
  ]

  const VideoPlayerApps: seq<string> := [
    "com.mxtech.videoplayer.ad",
    "com.mxtech.videoplayer.pro",
    "com.google.android.apps.mediashell",
    "com.google.android.videos",
    "org.videolan.vlc"
  ]

  const PredefinedMediaApps: seq<string> :=
    MusicStreamingApps + MusicPlayerApps + VideoStreamingApps + VideoPlayerApps

  // Names of equal length are told apart by their first differing character.

  lemma MediaGroupsDistinct()
    ensures NoDup(MusicStreamingApps) && NoDup(MusicPlayerApps)
    ensures NoDup(VideoStreamingApps) && NoDup(VideoPlayerApps)
  {
    assert MusicStreamingApps[5][6] != MusicStreamingApps[10][6];
    assert VideoPlayerApps[0][4] != VideoPlayerApps[3][4];
  }

  lemma MusicStreamingAppsApart()
    ensures Disjoint(MusicStreamingApps, MusicPlayerApps)
    ensures Disjoint(MusicStreamingApps, VideoStreamingApps)
    ensures Disjoint(MusicStreamingApps, VideoPlayerApps)
  {
    assert MusicStreamingApps[6][0] != MusicPlayerApps[1][0];
    assert MusicStreamingApps[4][4] != VideoStreamingApps[5][4];
    assert MusicStreamingApps[11][0] != VideoPlayerApps[4][0];
  }

  lemma OtherMediaGroupsApart()
    ensures Disjoint(MusicPlayerApps, VideoStreamingApps)
    ensures Disjoint(MusicPlayerApps, VideoPlayerApps)
    ensures Disjoint(VideoStreamingApps, VideoPlayerApps)
  {
    assert MusicPlayerApps[0][4] != VideoPlayerApps[0][4];
    assert MusicPlayerApps[0][4] != VideoPlayerApps[3][4];
    assert VideoStreamingApps[4][4] != VideoPlayerApps[1][4];
  }

  /** The predefined media list names 27 apps, each once. */
  lemma PredefinedMediaAppsDistinct()
    ensures |PredefinedMediaApps| == 27
    ensures NoDup(PredefinedMediaApps)
  {
    MediaGroupsDistinct();
    MusicStreamingAppsApart();
    OtherMediaGroupsApart();
    NoDupAppend(MusicStreamingApps, MusicPlayerApps);
    NoDupAppend(MusicStreamingApps + MusicPlayerApps, VideoStreamingApps);
    NoDupAppend(MusicStreamingApps + MusicPlayerApps + VideoStreamingApps, VideoPlayerApps);
  }

  // ---------------------------------------------------------------------
  // Typed accessors

  /** `get<T>(key, defaultValue)`: the value stored under `key` when it has the
      requested type, otherwise the caller's default, otherwise the fallback of
      the type; a type the store does not support is an error. The type system
      of the source makes the default's type the requested one. */
  function Get(kv: Store, kind: Kind, key: string, default: Option<Value>): (r: Result<Value>)
    requires default.Some? ==> KindOf(default.value) == kind
    ensures r.Err? <==> kind == OtherKind
    ensures r.Err? ==> r.error == UnsupportedOperation
    ensures r.Ok? ==> KindOf(r.value) == kind
    ensures r.Ok? && key in kv && KindOf(kv[key]) == kind ==> r.value == kv[key]
    ensures r.Ok? && key !in kv && default.Some? ==> r.value == default.value
    ensures r.Ok? && key !in kv && default.None? ==> r.value == Fallback(kind)
  {
    if kind == OtherKind then Err(UnsupportedOperation)
    else if key in kv && KindOf(kv[key]) == kind then Ok(kv[key])
    else if default.Some? then Ok(default.value)
    else Ok(Fallback(kind))
  }

  /** Reading back what `set` wrote gives the value written, whatever the
      default. */
  lemma GetAfterSet(kv: Store, key: string, v: Value, default: Option<Value>)
    requires default.Some? ==> KindOf(default.value) == KindOf(v)
    ensures Get(kv[key := v], KindOf(v), key, default) == Ok(v)
  {
  }

  /** After `remove` (or `set` with null) a read gives the default, or the
      fallback of the type when there is none. */
  lemma GetAfterRemove(kv: Store, key: string, kind: Kind, default: Option<Value>)
    requires kind != OtherKind
    requires default.Some? ==> KindOf(default.value) == kind
    ensures Get(kv - {key}, kind, key, default) == Ok(if default.Some? then default.value else Fallback(kind))
  {
  }

  /** Writing or removing one key changes no read of another key. */
  lemma GetOtherKey(kv: Store, key: string, other: string, v: Value, kind: Kind, default: Option<Value>)
    requires other != key
    requires default.Some? ==> KindOf(default.value) == kind
    ensures Get(kv[key := v], kind, other, default) == Get(kv, kind, other, default)
    ensures Get(kv - {key}, kind, other, default) == Get(kv, kind, other, default)
  {
  }

  // ---------------------------------------------------------------------
  // Allow-lists

  /** The three allow-lists: their keys and the list read when nothing has
      been saved yet. */
  datatype AllowListKey = EnabledAppsList | EnabledMediaAppsList | EnabledExperimentalAppsList {
    function Key(): string {
      match this
      case EnabledAppsList => EnabledApps
      case EnabledMediaAppsList => EnabledMediaApps
      case EnabledExperimentalAppsList => EnabledExperimentalApps
    }

    function Default(): seq<string> {
      if this == EnabledMediaAppsList then PredefinedMediaApps else []
    }
  }

  /** `Json.decodeFromString<ArrayList<String>>`. */
  function DecodeArray(t: Text): Result<seq<string>> {
    if t.JsonArray? then Ok(t.items) else Err(DecodeFailed)
  }

  /** The list stored under the allow-list's key, read with the encoded
      default list as default and decoded; a decode failure is not caught. */
  function AllowList(kv: Store, list: AllowListKey): (r: Result<seq<string>>)
    ensures list.Key() !in kv ==> r == Ok(list.Default())
    ensures r.Err? <==> list.Key() in kv && kv[list.Key()].StringValue? && !kv[list.Key()].text.JsonArray?
    ensures r.Err? ==> r.error == DecodeFailed
    ensures (list.Key() in kv && kv[list.Key()].StringValue? && kv[list.Key()].text.JsonArray?)
              ==> r == Ok(kv[list.Key()].text.items)
  {
    var apps := Get(kv, StringKind, list.Key(), Some(StringValue(JsonArray(list.Default()))));
    DecodeArray(apps.value.text)
  }

  /** Whether `pkg` is in the allow-list; a null name is in no list. */
  function IsEnabled(kv: Store, list: AllowListKey, pkg: Option<string>): Result<bool> {
    match AllowList(kv, list)
    case Ok(enabledPackages) => Ok(pkg.Some? && pkg.value in enabledPackages)
    case Err(e) => Err(e)
  }

  /** `isAppEnabled`: until a list is saved no app is enabled. */
  function IsAppEnabled(kv: Store, pkg: Option<string>): (r: Result<bool>)
    ensures EnabledApps !in kv ==> r == Ok(false)
    ensures pkg.None? ==> r != Ok(true)
    ensures r.Err? <==> AllowList(kv, EnabledAppsList).Err?
  {
    IsEnabled(kv, EnabledAppsList, pkg)
  }

  /** `isMediaAppEnabled`: until a list is saved exactly the predefined media
      apps are enabled. */
  function IsMediaAppEnabled(kv: Store, pkg: Option<string>): (r: Result<bool>)
    ensures EnabledMediaApps !in kv ==> r == Ok(pkg.Some? && pkg.value in PredefinedMediaApps)
    ensures pkg.None? ==> r != Ok(true)
    ensures r.Err? <==> AllowList(kv, EnabledMediaAppsList).Err?
  {
    IsEnabled(kv, EnabledMediaAppsList, pkg)
  }

  /** `isExperimentalAppEnabled`: until a list is saved no app is enabled. */
  function IsExperimentalAppEnabled(kv: Store, pkg: Option<string>): (r: Result<bool>)
    ensures EnabledExperimentalApps !in kv ==> r == Ok(false)
    ensures pkg.None? ==> r != Ok(true)
    ensures r.Err? <==> AllowList(kv, EnabledExperimentalAppsList).Err?
  {
    IsEnabled(kv, EnabledExperimentalAppsList, pkg)
  }

  /** The store after one of the `save*ToPrefs` calls: the allow-list is read,
      `pkg` toggled in it, and the new list written back under the same key.
      A list that does not decode leaves the store as it was and the call
      fails. */
  function AfterToggle(kv: Store, list: AllowListKey, pkg: string): (r: Result<Store>)
    ensures r.Err? <==> AllowList(kv, list).Err?
    ensures r.Ok? ==> AllowList(r.value, list) == Ok(Toggle(AllowList(kv, list).value, pkg))
    ensures r.Ok? ==> r.value.Keys == kv.Keys + {list.Key()}
    ensures r.Ok? ==> forall k :: k in kv && k != list.Key() ==> r.value[k] == kv[k]
  {
    match AllowList(kv, list)
    case Ok(enabledPackages) => Ok(kv[list.Key() := StringValue(JsonArray(Toggle(enabledPackages, pkg)))])
    case Err(e) => Err(e)
  }

  /** On a duplicate-free list, a save call flips whether `pkg` is enabled,
      keeps the list duplicate-free, and changes the membership of no other
      package. */
  lemma ToggleFlipsMembership(kv: Store, list: AllowListKey, pkg: string)
    requires AllowList(kv, list).Ok? && NoDup(AllowList(kv, list).value)
    ensures AfterToggle(kv, list, pkg).Ok?
    ensures AllowList(AfterToggle(kv, list, pkg).value, list).Ok?
    ensures NoDup(AllowList(AfterToggle(kv, list, pkg).value, list).value)
    ensures IsEnabled(AfterToggle(kv, list, pkg).value, list, Some(pkg))
              == Ok(pkg !in AllowList(kv, list).value)
    ensures forall q :: q != pkg ==>
              IsEnabled(AfterToggle(kv, list, pkg).value, list, Some(q)) == IsEnabled(kv, list, Some(q))
  {
    var xs := AllowList(kv, list).value;
    var ys := Toggle(xs, pkg);
    var after := AfterToggle(kv, list, pkg).value;
    assert AllowList(after, list) == Ok(ys);
    ToggleFlips(xs, pkg);
    EnabledIsMember(after, list, pkg);
    forall q | q != pkg
      ensures IsEnabled(after, list, Some(q)) == IsEnabled(kv, list, Some(q))
    {
      EnabledIsMember(after, list, q);
      EnabledIsMember(kv, list, q);
    }
  }

  /** On a list that decodes, a name is enabled exactly when it is in the
      list. */
  lemma EnabledIsMember(kv: Store, list: AllowListKey, q: string)
    requires AllowList(kv, list).Ok?
    ensures IsEnabled(kv, list, Some(q)) == Ok(q in AllowList(kv, list).value)
  {
  }

  /** A save call on one allow-list leaves the other two as they were. */
  lemma ToggleKeepsOtherLists(kv: Store, list: AllowListKey, pkg: string, other: AllowListKey)
    requires AfterToggle(kv, list, pkg).Ok?
    requires other != list
    ensures AllowList(AfterToggle(kv, list, pkg).value, other) == AllowList(kv, other)
  {
    assert other.Key() != list.Key();
  }

  /** Toggling a package twice: an absent package leaves the list exactly as
      it was; a present one (on a duplicate-free list) comes back at the end,
      so the list is the same only when it was already last. */
  lemma ToggleTwice(kv: Store, list: AllowListKey, pkg: string)
    requires AllowList(kv, list).Ok?
    ensures AfterToggle(kv, list, pkg).Ok?
    ensures AfterToggle(AfterToggle(kv, list, pkg).value, list, pkg).Ok?
    ensures var xs := AllowList(kv, list).value;
            var twice := AfterToggle(AfterToggle(kv, list, pkg).value, list, pkg).value;
            && (pkg !in xs ==> AllowList(twice, list) == Ok(xs))
            && (pkg in xs && NoDup(xs) ==>
                  && AllowList(twice, list) == Ok(RemoveFirst(xs, pkg) + [pkg])
                  && multiset(AllowList(twice, list).value) == multiset(xs)
                  && (AllowList(twice, list) == Ok(xs) <==> xs[|xs| - 1] == pkg))
  {
    var xs := AllowList(kv, list).value;
    if pkg !in xs {
      ToggleTwiceAbsent(xs, pkg);
    } else if NoDup(xs) {
      ToggleTwicePresent(xs, pkg);
    }
  }

  /** Every allow-list that decodes is duplicate-free. */
  ghost predicate AllowListsDuplicateFree(kv: Store) {
    forall list: AllowListKey :: AllowList(kv, list).Ok? ==> NoDup(AllowList(kv, list).value)
  }

  /** A store in which nothing has been saved satisfies the invariant: the
      two empty lists and the predefined media list are duplicate-free. */
  lemma EmptyStoreDuplicateFree()
    ensures AllowListsDuplicateFree(map[])
  {
    PredefinedMediaAppsDistinct();
  }

  /** Every save call keeps the invariant. */
  lemma ToggleKeepsDuplicateFree(kv: Store, list: AllowListKey, pkg: string)
    requires AllowListsDuplicateFree(kv)
    requires AfterToggle(kv, list, pkg).Ok?
    ensures AllowListsDuplicateFree(AfterToggle(kv, list, pkg).value)
  {
    ToggleFlipsMembership(kv, list, pkg);
    forall other: AllowListKey | other != list {
      ToggleKeepsOtherLists(kv, list, pkg, other);
    }
  }

  /** While no media list is saved every predefined media app is enabled, and
      the first toggle of one of them saves the predefined list without it,
      which disables it. */
  lemma MediaDefaults(kv: Store, pkg: string)
    requires EnabledMediaApps !in kv
    requires pkg in PredefinedMediaApps
    ensures IsMediaAppEnabled(kv, Some(pkg)) == Ok(true)
    ensures AfterToggle(kv, EnabledMediaAppsList, pkg)
              == Ok(kv[EnabledMediaApps := StringValue(JsonArray(RemoveFirst(PredefinedMediaApps, pkg)))])
    ensures IsMediaAppEnabled(AfterToggle(kv, EnabledMediaAppsList, pkg).value, Some(pkg)) == Ok(false)
    ensures |AllowList(AfterToggle(kv, EnabledMediaAppsList, pkg).value, EnabledMediaAppsList).value| == 26
  {
    PredefinedMediaAppsDistinct();
    RemoveFirstNoDup(PredefinedMediaApps, pkg);
  }

  // ---------------------------------------------------------------------
  // Activity types of the experimental RPC

  /** `Json.decodeFromString<Map<String, Int>>`. */
  function DecodeObject(t: Text): Result<map<string, Int32>> {
    if t.JsonObject? then Ok(t.entries) else Err(DecodeFailed)
  }

  /** `getAppActivityTypes`: the stored package-to-activity-type map, the
      empty map when nothing is stored or when it does not decode. */
  function AppActivityTypes(kv: Store): (r: map<string, Int32>)
    ensures ExperimentalRpcAppActivityTypes !in kv ==> r == map[]
    ensures var key := ExperimentalRpcAppActivityTypes;
            key in kv && kv[key].StringValue? ==>
              r == if kv[key].text.JsonObject? then kv[key].text.entries else map[]
  {
    var json := Get(kv, StringKind, ExperimentalRpcAppActivityTypes, Some(StringValue(JsonObject(map[])))).value;
    match DecodeObject(json.text)
    case Ok(m) => m
    case Err(_) => map[]
  }

  /** The store after `saveAppActivityType(pkg, activityType)`. */
  function AfterSaveAppActivityType(kv: Store, pkg: string, activityType: Int32): Store {
    var m := AppActivityTypes(kv);
    kv[ExperimentalRpcAppActivityTypes := StringValue(JsonObject(m[pkg := activityType]))]
  }

  /** Saving an activity type is an upsert: afterwards `pkg` maps to it, every
      other entry is as it was, a map that did not decode is replaced by the
      single entry, and no other key of the store changes. */
  lemma SaveAppActivityTypeUpserts(kv: Store, pkg: string, activityType: Int32)
    ensures var after := AfterSaveAppActivityType(kv, pkg, activityType);
            && AppActivityTypes(after) == AppActivityTypes(kv)[pkg := activityType]
            && pkg in AppActivityTypes(after) && AppActivityTypes(after)[pkg] == activityType
            && (forall p :: p != pkg ==>
                  (p in AppActivityTypes(after) <==> p in AppActivityTypes(kv)))
            && (forall p :: p != pkg && p in AppActivityTypes(kv) ==>
                  AppActivityTypes(after)[p] == AppActivityTypes(kv)[p])
            && after.Keys == kv.Keys + {ExperimentalRpcAppActivityTypes}
            && (forall k :: k in kv && k != ExperimentalRpcAppActivityTypes ==> after[k] == kv[k])
    ensures var key := ExperimentalRpcAppActivityTypes;
            key in kv && kv[key].StringValue? && !kv[key].text.JsonObject? ==>
              AppActivityTypes(AfterSaveAppActivityType(kv, pkg, activityType)) == map[pkg := activityType]
  {
  }

  /** Saving the same activity type twice is the same as saving it once. */
  lemma SaveAppActivityTypeIdempotent(kv: Store, pkg: string, activityType: Int32)
    ensures var once := AfterSaveAppActivityType(kv, pkg, activityType);
            AfterSaveAppActivityType(once, pkg, activityType) == once
  {
    var once := AfterSaveAppActivityType(kv, pkg, activityType);
    var m := AppActivityTypes(kv)[pkg := activityType];
    assert AppActivityTypes(once) == m;
    assert m[pkg := activityType] == m;
  }

  // ---------------------------------------------------------------------
  // Automatic deletion of the saved images

  /** 24 hours in milliseconds. */
  const DayMillis: Int64 := 86_400_000

  /** Kotlin `Long` subtraction, which wraps around modulo 2^64. */
  function Minus(a: Int64, b: Int64): (r: Int64)
    ensures (r as int - (a as int - b as int)) % TwoTo64 == 0
    ensures (-0x8000_0000_0000_0000 <= a as int - b as int < 0x8000_0000_0000_0000)
              ==> r as int == a as int - b as int
  {
    var d := a as int - b as int;
    if d < -0x8000_0000_0000_0000 then (d + TwoTo64) as Int64
    else if d >= 0x8000_0000_0000_0000 then (d - TwoTo64) as Int64
    else d as Int64
  }

  /** The last deletion time as `checkAndAutoDeleteSavedImages` reads it: the
      stored Long, or one day before the first clock reading when there is
      none. */
  function LastDeletedAt(kv: Store, firstNow: Int64): Int64 {
    Get(kv, LongKind, LastDeleted, Some(LongValue(Minus(firstNow, DayMillis)))).value.l
  }

  /** Whether the deletion is due at clock reading `now`: strictly more than a
      day since the last one, in wrapping Long arithmetic. */
  predicate CleanupDue(kv: Store, firstNow: Int64, now: Int64) {
    Minus(now, LastDeletedAt(kv, firstNow)) > DayMillis
  }

  /** The store after `checkAndAutoDeleteSavedImages`, given the two clock
      readings it takes. */
  function AfterCleanup(kv: Store, firstNow: Int64, now: Int64): (r: Store)
    ensures CleanupDue(kv, firstNow, now) ==>
              && SavedImages !in r && SavedArtwork !in r
              && LastDeleted in r && r[LastDeleted] == LongValue(now)
    ensures forall k :: k != SavedImages && k != SavedArtwork && k != LastDeleted ==>
              (k in r <==> k in kv) && (k in kv ==> r[k] == kv[k])
    ensures !CleanupDue(kv, firstNow, now) ==> r == kv
  {
    if CleanupDue(kv, firstNow, now) then
      ((kv - {SavedImages}) - {SavedArtwork})[LastDeleted := LongValue(now)]
    else kv
  }

  /** With clock readings and a stored timestamp that are non-negative and at
      least a day below the largest Long, nothing wraps: the deletion is due
      exactly when strictly more than 86 400 000 ms have passed, and on the
      first run (no timestamp stored) exactly when the second clock reading is
      later than the first. */
  lemma CleanupWindow(kv: Store, firstNow: Int64, now: Int64)
    requires 0 <= firstNow && 0 <= now && now as int <= 0x7FFF_FFFF_FFFF_FFFF - 86_400_000
    requires LastDeleted in kv && kv[LastDeleted].LongValue? ==> kv[LastDeleted].l >= 0
    ensures CleanupDue(kv, firstNow, now) <==> now as int - LastDeletedAt(kv, firstNow) as int > 86_400_000
    ensures !(LastDeleted in kv && kv[LastDeleted].LongValue?) ==>
              (CleanupDue(kv, firstNow, now) <==> now > firstNow)
  {
    var last := LastDeletedAt(kv, firstNow);
    assert -86_400_000 <= last as int;
    assert Minus(now, last) as int == now as int - last as int;
  }

  /** A deletion stamps `now`, so the next deletion is due only when strictly
      more than a day (in Long arithmetic) has passed since `now`, whatever
      the first clock reading of the later call. */
  lemma CleanupRestamps(kv: Store, firstNow: Int64, now: Int64, laterFirst: Int64, later: Int64)
    requires CleanupDue(kv, firstNow, now)
    ensures LastDeletedAt(AfterCleanup(kv, firstNow, now), laterFirst) == now
    ensures CleanupDue(AfterCleanup(kv, firstNow, now), laterFirst, later) <==> Minus(later, now) > DayMillis
  {
  }

  /** A second call with the same clock readings changes nothing. */
  lemma CleanupIdempotent(kv: Store, firstNow: Int64, now: Int64)
    ensures AfterCleanup(AfterCleanup(kv, firstNow, now), firstNow, now) == AfterCleanup(kv, firstNow, now)
  {
    if CleanupDue(kv, firstNow, now) {
      CleanupRestamps(kv, firstNow, now, firstNow, now);
      assert Minus(now, now) == 0;
    }
  }

  // ---------------------------------------------------------------------
  // The facade object

  /** The singleton `Prefs`: the store it wraps and the operations that write
      to it. The store starts as whatever was persisted. */
  class Prefs {
    var kv: Store

    constructor (persisted: Store)
      ensures kv == persisted
    {
      kv := persisted;
    }

    /** `set(key, value)`: null removes the key, a supported value replaces
        the entry, any other value is refused and the store is unchanged. */
    method Set(key: string, value: Arg) returns (r: Result<()>)
      modifies this
      ensures value.Null? ==> r == Ok(()) && kv == old(kv) - {key}
      ensures value.Scalar? ==> r == Ok(()) && kv == old(kv)[key := value.v]
      ensures value.Unsupported? ==> r == Err(UnsupportedOperation) && kv == old(kv)
    {
      match value
      case Null =>
        kv := kv - {key};
        r := Ok(());
      case Scalar(v) =>
        kv := kv[key := v];
        r := Ok(());
      case Unsupported =>
        r := Err(UnsupportedOperation);
    }

    /** `remove(key)`. */
    method Remove(key: string)
      modifies this
      ensures kv == old(kv) - {key}
    {
      kv := kv - {key};
    }

    /** The read-modify-write shared by the three `save*ToPrefs`. */
    method SaveToggled(list: AllowListKey, pkg: string) returns (r: Result<()>)
      modifies this
      ensures AfterToggle(old(kv), list, pkg).Ok? ==>
                r == Ok(()) && kv == AfterToggle(old(kv), list, pkg).value
      ensures AfterToggle(old(kv), list, pkg).Err? ==>
                r == Err(DecodeFailed) && kv == old(kv)
    {
      var apps := Get(kv, StringKind, list.Key(), Some(StringValue(JsonArray(list.Default()))));
      var decoded := DecodeArray(apps.value.text);
      if decoded.Err? {
        return Err(decoded.error);
      }
      var enabledPackages := decoded.value;
      if pkg in enabledPackages {
        enabledPackages := RemoveFirst(enabledPackages, pkg);
      } else {
        enabledPackages := enabledPackages + [pkg];
      }
      r := Set(list.Key(), Scalar(StringValue(JsonArray(enabledPackages))));
    }

    /** `saveToPrefs(pkg)`: toggles `pkg` in the enabled apps. */
    method SaveToPrefs(pkg: string) returns (r: Result<()>)
      modifies this
      ensures AfterToggle(old(kv), EnabledAppsList, pkg).Ok? ==>
                r == Ok(()) && kv == AfterToggle(old(kv), EnabledAppsList, pkg).value
      ensures AfterToggle(old(kv), EnabledAppsList, pkg).Err? ==>
                r == Err(DecodeFailed) && kv == old(kv)
    {
      r := SaveToggled(EnabledAppsList, pkg);
    }

    /** `saveMediaAppToPrefs(pkg)`: toggles `pkg` in the enabled media apps. */
    method SaveMediaAppToPrefs(pkg: string) returns (r: Result<()>)
      modifies this
      ensures AfterToggle(old(kv), EnabledMediaAppsList, pkg).Ok? ==>
                r == Ok(()) && kv == AfterToggle(old(kv), EnabledMediaAppsList, pkg).value
      ensures AfterToggle(old(kv), EnabledMediaAppsList, pkg).Err? ==>
                r == Err(DecodeFailed) && kv == old(kv)
    {
      r := SaveToggled(EnabledMediaAppsList, pkg);
    }

    /** `saveExperimentalAppToPrefs(pkg)`: toggles `pkg` in the enabled
        experimental apps. */
    method SaveExperimentalAppToPrefs(pkg: string) returns (r: Result<()>)
      modifies this
      ensures AfterToggle(old(kv), EnabledExperimentalAppsList, pkg).Ok? ==>
                r == Ok(()) && kv == AfterToggle(old(kv), EnabledExperimentalAppsList, pkg).value
      ensures AfterToggle(old(kv), EnabledExperimentalAppsList, pkg).Err? ==>
                r == Err(DecodeFailed) && kv == old(kv)
    {
      r := SaveToggled(EnabledExperimentalAppsList, pkg);
    }

    /** `saveAppActivityType(packageName, activityType)`. */
    method SaveAppActivityType(packageName: string, activityType: Int32)
      modifies this
      ensures kv == AfterSaveAppActivityType(old(kv), packageName, activityType)
      ensures AppActivityTypes(kv) == AppActivityTypes(old(kv))[packageName := activityType]
    {
      var json := Get(kv, StringKind, ExperimentalRpcAppActivityTypes, Some(StringValue(JsonObject(map[]))));
      var decoded := DecodeObject(json.value.text);
      var m: map<string, Int32> := if decoded.Ok? then decoded.value else map[];
      m := m[packageName := activityType];
      var _ := Set(ExperimentalRpcAppActivityTypes, Scalar(StringValue(JsonObject(m))));
      SaveAppActivityTypeUpserts(old(kv), packageName, activityType);
    }

    /** `checkAndAutoDeleteSavedImages()`, with the clock reading taken for
        the default (`firstNow`) and the one taken as the current time
        (`now`) passed in. */
    method CheckAndAutoDeleteSavedImages(firstNow: Int64, now: Int64)
      modifies this
      ensures kv == AfterCleanup(old(kv), firstNow, now)
    {
      var lastDeleted := Get(kv, LongKind, LastDeleted, Some(LongValue(Minus(firstNow, DayMillis)))).value.l;
      var currentTime := now;
      if Minus(currentTime, lastDeleted) > DayMillis {
        Remove(SavedImages);
        Remove(SavedArtwork);
        var _ := Set(LastDeleted, Scalar(LongValue(currentTime)));
      }
    }
  }
}
