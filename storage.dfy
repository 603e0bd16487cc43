/** Persistence of devices in the bolt database: one bucket per persisted field,
    keyed by UDID. An empty field is stored by deleting its entry, and a missing
    entry reads back as empty. */
module Storage {
  import opened Collaborators
  import opened Devices

  const SERIAL_BUCKET := "device_serial"
  const COMPUTER_NAME_BUCKET := "device_computer_name"
  const KEYCHAIN_UUID_BUCKET := "device_mdm_identity_keychain_uuid"
  const PROFILE_ID_BUCKET := "device_mdm_profile_id"

  /** The persisted fields of a device. */
  datatype Record = Record(serial: string, computerName: string, keychainUUID: string, profileID: string)

  function RecordOf(device: Device): Record
    reads device
  {
    Record(device.serial, device.computerName, device.mdmIdentityKeychainUUID, device.mdmProfileIdentifier)
  }

  /** Only a device with a UDID can be saved. */
  predicate ValidDevice(device: Device)
  {
    device.udid != ""
  }

  /** The store after the four field writes of a save. */
  function Saved(data: Store, udid: string, rec: Record): Store
  {
    var data := PutOrDelete(data, SERIAL_BUCKET, udid, rec.serial);
    var data := PutOrDelete(data, COMPUTER_NAME_BUCKET, udid, rec.computerName);
    var data := PutOrDelete(data, KEYCHAIN_UUID_BUCKET, udid, rec.keychainUUID);
    PutOrDelete(data, PROFILE_ID_BUCKET, udid, rec.profileID)
  }

  /** The fields stored for a UDID, missing ones empty. */
  function Stored(data: Store, udid: string): Record
  {
    Record(Get(data, SERIAL_BUCKET, udid), Get(data, COMPUTER_NAME_BUCKET, udid),
           Get(data, KEYCHAIN_UUID_BUCKET, udid), Get(data, PROFILE_ID_BUCKET, udid))
  }

  /** The UDIDs of the serial bucket. */
  function SerialKeys(data: Store): set<string>
  {
    set p | p in data && p.0 == SERIAL_BUCKET :: p.1
  }

  /** Each field saved for a UDID is stored under it in its own bucket, an
      empty field as no entry at all. */
  lemma SavedEntries(data: Store, udid: string, rec: Record)
    ensures var r := Saved(data, udid, rec);
            && ((SERIAL_BUCKET, udid) in r <==> rec.serial != "")
            && ((COMPUTER_NAME_BUCKET, udid) in r <==> rec.computerName != "")
            && ((KEYCHAIN_UUID_BUCKET, udid) in r <==> rec.keychainUUID != "")
            && ((PROFILE_ID_BUCKET, udid) in r <==> rec.profileID != "")
            && ((SERIAL_BUCKET, udid) in r ==> r[(SERIAL_BUCKET, udid)] == rec.serial)
            && ((COMPUTER_NAME_BUCKET, udid) in r ==> r[(COMPUTER_NAME_BUCKET, udid)] == rec.computerName)
            && ((KEYCHAIN_UUID_BUCKET, udid) in r ==> r[(KEYCHAIN_UUID_BUCKET, udid)] == rec.keychainUUID)
            && ((PROFILE_ID_BUCKET, udid) in r ==> r[(PROFILE_ID_BUCKET, udid)] == rec.profileID)
  {
  }

  /** Saving reads back as what was saved, empty fields included. */
  lemma SaveLoadRoundTrip(data: Store, udid: string, rec: Record)
    ensures Stored(Saved(data, udid, rec), udid) == rec
  {
  }

  /** Saving one device leaves every entry under another key as it was. */
  lemma SavedFrame(data: Store, udid: string, rec: Record, bucket: string, key: string)
    requires key != udid
    ensures (bucket, key) in Saved(data, udid, rec) <==> (bucket, key) in data
    ensures (bucket, key) in data ==> Saved(data, udid, rec)[(bucket, key)] == data[(bucket, key)]
  {
  }

  /** Writes the device's four fields under its UDID, or fails without writing
      for a device without a UDID. */
  method Save(device: Device) returns (err: Option<Error>)
    modifies device.boltDB
    ensures !ValidDevice(device) ==> err == Some(InvalidDevice) && device.boltDB.data == old(device.boltDB.data)
    ensures ValidDevice(device) ==>
              err == None && device.boltDB.data == Saved(old(device.boltDB.data), device.udid, RecordOf(device))
  {
    if !ValidDevice(device) {
      return Some(InvalidDevice);
    }
    var db := device.boltDB;
    db.PutOrDeleteString(SERIAL_BUCKET, device.udid, device.serial);
    db.PutOrDeleteString(COMPUTER_NAME_BUCKET, device.udid, device.computerName);
    db.PutOrDeleteString(KEYCHAIN_UUID_BUCKET, device.udid, device.mdmIdentityKeychainUUID);
    db.PutOrDeleteString(PROFILE_ID_BUCKET, device.udid, device.mdmProfileIdentifier);
    err := None;
  }

  /** Reads a device's fields one by one; a UDID without a stored serial is not
      found, and the other fields are then not read. */
  method Load(udid: string, db: BoltDB) returns (device: Device, err: Option<Error>)
    ensures fresh(device) && device.udid == udid && device.boltDB == db && device.mdmClient == null && device.Valid()
    ensures var stored := Stored(db.data, udid);
            if stored.serial == "" then err == Some(DeviceNotFound) && RecordOf(device) == Record("", "", "", "")
            else err == None && RecordOf(device) == stored
  {
    device := new Device(udid, "", "", db);
    device.serial := db.GetString(SERIAL_BUCKET, udid);
    if device.serial == "" {
      return device, Some(DeviceNotFound);
    }
    device.computerName := db.GetString(COMPUTER_NAME_BUCKET, udid);
    device.mdmIdentityKeychainUUID := db.GetString(KEYCHAIN_UUID_BUCKET, udid);
    device.mdmProfileIdentifier := db.GetString(PROFILE_ID_BUCKET, udid);
    err := None;
  }

  /** Collects the keys of the serial bucket, each once; no key at all is an
      error. */
  method List(db: BoltDB) returns (udids: seq<string>, err: Option<Error>)
    ensures forall u :: u in udids <==> (SERIAL_BUCKET, u) in db.data
    ensures forall i, j :: 0 <= i < j < |udids| ==> udids[i] != udids[j]
    ensures err == None <==> udids != []
    ensures err != None ==> err == Some(NoDevices)
  {
    var pending := SerialKeys(db.data);
    udids := [];
    while pending != {}
      invariant forall u :: u in udids || u in pending <==> (SERIAL_BUCKET, u) in db.data
      invariant forall u :: u in udids ==> u !in pending
      invariant forall i, j :: 0 <= i < j < |udids| ==> udids[i] != udids[j]
      decreases pending
    {
      var u :| u in pending;
      udids := udids + [u];
      pending := pending - {u};
    }
    err := if |udids| == 0 then Some(NoDevices) else None;
  }

  /** A saved device with a serial loads back with the same fields. */
  method SaveThenLoad(device: Device) returns (loaded: Device, err: Option<Error>)
    requires ValidDevice(device) && device.serial != ""
    modifies device.boltDB
    ensures err == None
    ensures loaded.udid == device.udid && RecordOf(loaded) == RecordOf(device)
  {
    var saveErr := Save(device);
    SaveLoadRoundTrip(old(device.boltDB.data), device.udid, RecordOf(device));
    loaded, err := Load(device.udid, device.boltDB);
  }
}
