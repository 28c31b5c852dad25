/** `src/actions/setup.ts`: the first-run wizard's server side. Hashing the
    password and issuing the session cookie are not modelled: the hash and the
    new user's id are inputs. */
module SetupActions {
  import opened JsText
  import opened Schema
  import opened Store
  import opened SettingsActions

  datatype ActionResult = Success | Failure(error: string)

  /** The wizard's form. */
  datatype SetupData = SetupData(
    storeName: string,
    storeAddress: Option<string>,
    storePhone: Option<string>,
    adminName: string,
    adminEmail: string,
    adminPassword: string,
    logoUrl: Option<string>)

  /** The stored permission list of the first administrator: `JSON.stringify(['all'])`. */
  const AllPermissions: string := "[\"all\"]"

  /** `isSystemInitialized`: some ADMIN user exists; when the count query
      fails (`countFails`) the answer is false. */
  predicate IsSystemInitialized(users: map<string, User>, countFails: bool) {
    !countFails && exists id :: id in users && users[id].role == ADMIN
  }

  /** The fields the wizard writes into the settings row; the footer and
      printer fields are not supplied. */
  function SetupPatch(data: SetupData): SettingsPatch {
    SettingsPatch(Some(data.storeName), data.storeAddress, data.storePhone, data.logoUrl, None, None, None)
  }

  /** The row `upsert` leaves: the wizard's name, and its address, phone and
      logo where supplied; footer and printer settings as they were, or the
      column defaults for a new row. */
  lemma SetupPatchEffect(row: Option<Settings>, data: SetupData)
    ensures var base := if row.Some? then row.value else BareSettings();
      var r := Upsert(row, SetupPatch(data));
      && r.storeName == data.storeName
      && r.storeAddress == (if data.storeAddress.Some? then data.storeAddress else base.storeAddress)
      && r.storePhone == (if data.storePhone.Some? then data.storePhone else base.storePhone)
      && r.storeLogoUrl == (if data.logoUrl.Some? then data.logoUrl else base.storeLogoUrl)
      && r.receiptFooter == base.receiptFooter
      && r.printerType == base.printerType && r.printerWidth == base.printerWidth
  {
    UpsertEffect(row, SetupPatch(data));
  }

  function AdminUser(id: string, data: SetupData, passwordHash: string): User {
    User(id, data.adminName, data.adminEmail, passwordHash, ADMIN, Some(AllPermissions))
  }

  predicate EmailTaken(users: map<string, User>, email: string) {
    exists id :: id in users && users[id].email == email
  }

  /** `user.create` fails on a taken e-mail address or id. */
  predicate CreateRejected(users: map<string, User>, id: string, email: string) {
    id in users || EmailTaken(users, email)
  }

  /** Adding the administrator initializes the system; an empty user table
      leaves it uninitialized. */
  lemma AdminInitializes(users: map<string, User>, id: string, data: SetupData, passwordHash: string)
    ensures IsSystemInitialized(users[id := AdminUser(id, data, passwordHash)], false)
    ensures forall countFails :: !IsSystemInitialized(map[], countFails)
  {
    assert id in users[id := AdminUser(id, data, passwordHash)];
  }

  /** `initializeSystem(data)`: refused when already initialized; otherwise the
      settings are upserted first, and then the administrator is created. The
      two writes are not one transaction, so a rejected user leaves the
      settings written. */
  method InitializeSystem(db: Db, data: SetupData, newId: string, passwordHash: string, countFails: bool)
    returns (r: ActionResult)
    modifies db`settings, db`users
    ensures IsSystemInitialized(old(db.users), countFails) ==>
      r == Failure("System already initialized") && db.settings == old(db.settings) && db.users == old(db.users)
    ensures !IsSystemInitialized(old(db.users), countFails) ==>
      db.settings == Some(Upsert(old(db.settings), SetupPatch(data)))
    ensures !IsSystemInitialized(old(db.users), countFails) && CreateRejected(old(db.users), newId, data.adminEmail) ==>
      r == Failure("Initialization failed") && db.users == old(db.users)
    ensures !IsSystemInitialized(old(db.users), countFails) && !CreateRejected(old(db.users), newId, data.adminEmail) ==>
      r == Success && db.users == old(db.users)[newId := AdminUser(newId, data, passwordHash)]
    ensures r == Success ==> IsSystemInitialized(db.users, false)
  {
    if IsSystemInitialized(db.users, countFails) {
      return Failure("System already initialized");
    }
    var s := UpdateSettings(db, SetupPatch(data));
    if CreateRejected(db.users, newId, data.adminEmail) {
      return Failure("Initialization failed");
    }
    AdminInitializes(db.users, newId, data, passwordHash);
    db.users := db.users[newId := AdminUser(newId, data, passwordHash)];
    r := Success;
  }

  /** `resetSystem()`: one transaction deleting the transactional tables and
      all users, keeping the settings row; when it fails (`fails`) nothing
      changes. The sale id counter is not reset. */
  method ResetSystem(db: Db, fails: bool) returns (r: ActionResult)
    modifies db`sales, db`appointments, db`expenses, db`products, db`clients, db`users
    ensures fails ==> r == Failure("Reset failed") && unchanged(db)
    ensures !fails ==> r == Success
    ensures !fails ==> db.sales == map[] && db.appointments == {} && db.expenses == []
    ensures !fails ==> db.products == map[] && db.clients == map[] && db.users == map[]
    ensures !fails ==> forall countFails :: !IsSystemInitialized(db.users, countFails)
    ensures old(db.Valid()) ==> db.Valid()
  {
    if fails {
      return Failure("Reset failed");
    }
    db.sales, db.appointments, db.expenses := map[], {}, [];
    db.products, db.clients, db.users := map[], map[], map[];
    r := Success;
  }
}
