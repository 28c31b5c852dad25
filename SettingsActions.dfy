/** `src/actions/settings.ts`: the singleton settings row, fetched with
    get-or-create (renaming the legacy store name on the way) and upserted. */
module SettingsActions {
  import opened JsText
  import opened Schema
  import Store

  /** The store name older installations stored, rewritten on every read. */
  const LegacyStoreName: string := "eyeroniq PoS"

  /** What `getSettings` leaves in the row and returns, given the row it found. */
  function GetOrCreate(row: Option<Settings>): Settings {
    match row
    case None => BareSettings().(storeName := DefaultStoreName)
    case Some(s) => if s.storeName == LegacyStoreName then s.(storeName := DefaultStoreName) else s
  }

  /** A missing row is created with the default store name; the legacy name is
      rewritten and every other field kept; any other row is returned as found;
      and the legacy name is never returned. */
  lemma GetOrCreateEffect(row: Option<Settings>)
    ensures row.None? ==> GetOrCreate(row) == BareSettings() && GetOrCreate(row).storeName == "eyeroniq PoS Lite"
    ensures row.Some? && row.value.storeName == "eyeroniq PoS" ==>
      GetOrCreate(row) == row.value.(storeName := "eyeroniq PoS Lite")
    ensures row.Some? && row.value.storeName != "eyeroniq PoS" ==> GetOrCreate(row) == row.value
    ensures GetOrCreate(row).storeName != "eyeroniq PoS"
  {
  }

  /** Calling `getSettings` a second time finds the row the first call left and
      changes nothing. */
  lemma GetOrCreateIdempotent(row: Option<Settings>)
    ensures GetOrCreate(Some(GetOrCreate(row))) == GetOrCreate(row)
  {
  }

  /** `getSettings()`. */
  method GetSettings(db: Store.Db) returns (s: Settings)
    modifies db`settings
    ensures s == GetOrCreate(old(db.settings))
    ensures db.settings == Some(s)
  {
    if db.settings.None? {
      db.settings := Some(BareSettings().(storeName := DefaultStoreName));
    } else if db.settings.value.storeName == LegacyStoreName {
      db.settings := Some(db.settings.value.(storeName := DefaultStoreName));
    }
    s := db.settings.value;
  }

  /** The fields a caller of `updateSettings` may supply; `None` is an absent field. */
  datatype SettingsPatch = SettingsPatch(
    storeName: Option<string>,
    storeAddress: Option<string>,
    storePhone: Option<string>,
    storeLogoUrl: Option<string>,
    receiptFooter: Option<string>,
    printerType: Option<string>,
    printerWidth: Option<int>)

  function Pick<T>(supplied: Option<T>, current: T): T {
    if supplied.Some? then supplied.value else current
  }

  function PickOpt<T>(supplied: Option<T>, current: Option<T>): Option<T> {
    if supplied.Some? then supplied else current
  }

  /** Prisma's `update: data`: supplied fields overwrite, absent ones are kept. */
  function Apply(s: Settings, p: SettingsPatch): Settings {
    Settings(
      Pick(p.storeName, s.storeName),
      PickOpt(p.storeAddress, s.storeAddress),
      PickOpt(p.storePhone, s.storePhone),
      PickOpt(p.storeLogoUrl, s.storeLogoUrl),
      PickOpt(p.receiptFooter, s.receiptFooter),
      Pick(p.printerType, s.printerType),
      Pick(p.printerWidth, s.printerWidth))
  }

  /** `upsert` on the row 'default': update the existing row, or create one from
      the column defaults and the supplied fields. */
  function Upsert(row: Option<Settings>, p: SettingsPatch): Settings {
    Apply(if row.Some? then row.value else BareSettings(), p)
  }

  /** Every supplied field is stored; every absent one keeps the existing value,
      or the column default when the row did not exist. */
  lemma UpsertEffect(row: Option<Settings>, p: SettingsPatch)
    ensures var base := if row.Some? then row.value else BareSettings();
      var r := Upsert(row, p);
      (p.storeName.Some? ==> r.storeName == p.storeName.value) &&
      (p.storeName.None? ==> r.storeName == base.storeName) &&
      (p.storeAddress.Some? ==> r.storeAddress == p.storeAddress) &&
      (p.storeAddress.None? ==> r.storeAddress == base.storeAddress) &&
      (p.storePhone.Some? ==> r.storePhone == p.storePhone) &&
      (p.storePhone.None? ==> r.storePhone == base.storePhone) &&
      (p.storeLogoUrl.Some? ==> r.storeLogoUrl == p.storeLogoUrl) &&
      (p.storeLogoUrl.None? ==> r.storeLogoUrl == base.storeLogoUrl) &&
      (p.receiptFooter.Some? ==> r.receiptFooter == p.receiptFooter) &&
      (p.receiptFooter.None? ==> r.receiptFooter == base.receiptFooter) &&
      (p.printerType.Some? ==> r.printerType == p.printerType.value) &&
      (p.printerType.None? ==> r.printerType == base.printerType) &&
      (p.printerWidth.Some? ==> r.printerWidth == p.printerWidth.value) &&
      (p.printerWidth.None? ==> r.printerWidth == base.printerWidth)
  {
  }

  /** An empty patch leaves an existing row as it was; upserting the same patch
      twice is the same as once. */
  lemma UpsertIdempotent(row: Option<Settings>, p: SettingsPatch)
    ensures row.Some? ==> Upsert(row, SettingsPatch(None, None, None, None, None, None, None)) == row.value
    ensures Upsert(Some(Upsert(row, p)), p) == Upsert(row, p)
  {
  }

  /** `updateSettings(data)`: the row afterwards, which it also returns. */
  method UpdateSettings(db: Store.Db, p: SettingsPatch) returns (s: Settings)
    modifies db`settings
    ensures s == Upsert(old(db.settings), p)
    ensures db.settings == Some(s)
  {
    var base := if db.settings.Some? then db.settings.value else BareSettings();
    s := Apply(base, p);
    db.settings := Some(s);
  }
}
