/** A simulated Apple device and its MDM client.

    A Device is built fresh (random serial and UDID) or loaded from storage. Its
    MDM client is built on first use from the device's keychain identity
    reference and profile reference, and is cached on the device afterwards,
    whether the build succeeded or not. The client resolves the identity through
    three keychain lookups, attaches the single MDM payload of the enrollment
    profile, configures a transport from that payload, and enrolls or unenrolls
    the device. */
module Devices {
  import opened Collaborators
  import opened Identifiers

  class Device {
    const udid: string
    var serial: string
    var computerName: string

    var mdmIdentityKeychainUUID: string
    var mdmProfileIdentifier: string

    const boltDB: BoltDB

    var mdmClient: MDMClient?

    /** A cached client is always this device's own client. */
    ghost predicate Valid()
      reads this`mdmClient
    {
      mdmClient != null ==> mdmClient.device == this
    }

    /** A device with the given identity, no enrollment references and no client. */
    constructor (udid: string, serial: string, computerName: string, boltDB: BoltDB)
      ensures this.udid == udid && this.serial == serial && this.computerName == computerName
      ensures this.boltDB == boltDB
      ensures mdmIdentityKeychainUUID == "" && mdmProfileIdentifier == ""
      ensures mdmClient == null && Valid()
    {
      this.udid := udid;
      this.serial := serial;
      this.computerName := computerName;
      this.boltDB := boltDB;
      mdmIdentityKeychainUUID := "";
      mdmProfileIdentifier := "";
      mdmClient := null;
    }

    /** Returns the cached client, building it first when there is none. The
        client of a failed build is cached too, and every later call returns it
        with no error. */
    method MDMClient(keychain: Keychain, profiles: ProfileStore) returns (c: MDMClient, err: Option<Error>)
      requires Valid()
      modifies this`mdmClient
      ensures Valid() && mdmClient == c && c.device == this
      ensures old(mdmClient) != null ==> c == old(mdmClient) && err == None
      ensures old(mdmClient) == null ==> fresh(c) && Built(c, this, keychain, profiles, err)
      ensures old(mdmClient) == null ==> (err == None <==> c.IsEnrolled())
    {
      if mdmClient == null {
        var built, e := NewMDMClient(this, keychain, profiles);
        mdmClient := built;
        err := e;
      } else {
        err := None;
      }
      c := mdmClient;
    }
  }

  /** A new device: serial from the drawn alphabet indices, UDID the upper case
      of the raw UUID, and the computer name defaulting to one derived from the
      serial. */
  method New(name: string, db: BoltDB, draws: seq<nat>, rawUUID: string) returns (device: Device)
    requires IsSerialDraws(draws)
    ensures fresh(device)
    ensures IsSerial(device.serial)
    ensures forall i :: 0 <= i < |device.serial| ==> device.serial[i] == SERIAL_LETTERS[draws[i]]
    ensures device.udid == ToUpper(rawUUID) && ToUpper(device.udid) == device.udid
    ensures device.computerName == if name == "" then device.serial + "'s Computer" else name
    ensures device.mdmIdentityKeychainUUID == "" && device.mdmProfileIdentifier == ""
    ensures device.mdmClient == null && device.boltDB == db && device.Valid()
  {
    var serial := RandSerial(draws);
    device := new Device(ToUpper(rawUUID), serial, name, db);
    if name == "" {
      device.computerName := device.serial + "'s Computer";
    }
    ToUpperIdempotent(rawUUID);
  }

  // ---------------------------------------------------------------------------
  // Identity and payload resolution

  /** The private key and certificate an identity resolves to. Either may be
      absent when the item found is not of the expected kind. */
  datatype Identity = Identity(key: Option<PrivateKey>, certificate: Option<Certificate>)

  /** The identity of a keychain UUID: the identity item, then its key item,
      then its certificate item. */
  function ResolveIdentity(keychain: Keychain, uuid: string): (r: Result<Identity>)
    ensures uuid == "" ==> r == Err(InvalidKeychainUUID)
    ensures uuid != "" && uuid !in keychain ==> r == Err(KeychainItemNotFound(uuid))
    ensures r.Ok? <==>
              && uuid != "" && uuid in keychain
              && keychain[uuid].identityKeyUUID in keychain
              && keychain[uuid].identityCertificateUUID in keychain
    ensures r.Ok? ==>
              r.value == Identity(keychain[keychain[uuid].identityKeyUUID].key,
                                  keychain[keychain[uuid].identityCertificateUUID].certificate)
  {
    if uuid == "" then Err(InvalidKeychainUUID)
    else
      var id :- LoadKeychainItem(keychain, uuid);
      var keyItem :- LoadKeychainItem(keychain, id.identityKeyUUID);
      var certItem :- LoadKeychainItem(keychain, id.identityCertificateUUID);
      Ok(Identity(keyItem.key, certItem.certificate))
  }

  /** The MDM payload of an enrollment profile, which must hold exactly one. */
  function ResolvePayload(profiles: ProfileStore, profileID: string): (r: Result<MDMPayload>)
    ensures profileID == "" ==> r == Err(NoMDMProfileInstalled)
    ensures profileID != "" && profileID !in profiles ==> r == Err(ProfileNotFound(profileID))
    ensures profileID != "" && profileID in profiles && |profiles[profileID]| != 1 ==>
              r == Err(NotOneMDMPayload(|profiles[profileID]|))
    ensures r.Ok? <==> profileID != "" && profileID in profiles && |profiles[profileID]| == 1
    ensures r.Ok? ==> r.value == profiles[profileID][0]
  {
    if profileID == "" then Err(NoMDMProfileInstalled)
    else if profileID !in profiles then Err(ProfileNotFound(profileID))
    else
      var payloads := profiles[profileID];
      if |payloads| != 1 then Err(NotOneMDMPayload(|payloads|)) else Ok(payloads[0])
  }

  /** The options the client's transport is built from: an identity provider,
      the payload's server and check-in URLs and, only for a payload that asks
      for it, signed messages. */
  function TransportOptions(payload: MDMPayload): (options: seq<TransportOption>)
    ensures WithIdentityProvider in options
    ensures WithMDMURLs(payload.serverURL, payload.checkInURL) in options
    ensures WithSignMessage in options <==> payload.signMessage
  {
    var options := [WithIdentityProvider, WithMDMURLs(payload.serverURL, payload.checkInURL)];
    if payload.signMessage then options + [WithSignMessage] else options
  }

  /** The transport configured from a payload takes both URLs from it and signs
      messages exactly when the payload says so. */
  lemma ConfiguredTransport(payload: MDMPayload)
    ensures NewTransport(TransportOptions(payload))
         == Transport(true, payload.serverURL, payload.checkInURL, payload.signMessage)
  {
  }

  // ---------------------------------------------------------------------------
  // Client construction

  /** What building a client for a device yields: the client's state and the
      error returned, step by step as the build goes. */
  ghost predicate Built(c: MDMClient, device: Device, keychain: Keychain, profiles: ProfileStore, err: Option<Error>)
    reads c, device`mdmIdentityKeychainUUID, device`mdmProfileIdentifier
  {
    var uuid := device.mdmIdentityKeychainUUID;
    var identity := ResolveIdentity(keychain, uuid);
    var payload := ResolvePayload(profiles, device.mdmProfileIdentifier);
    && c.device == device
    && if uuid == "" then
         // no keychain lookup at all
         err == Some(NoIdentityUUID) && c.Blank()
       else if identity.Err? then
         err == Some(identity.error) && c.Blank()
       else if payload.Err? then
         && err == Some(payload.error)
         && c.identityPrivateKey == identity.value.key
         && c.identityCertificate == identity.value.certificate
         && c.mdmPayload == None && c.transport == None
       else
         && c.identityPrivateKey == identity.value.key
         && c.identityCertificate == identity.value.certificate
         && c.mdmPayload == Some(payload.value)
         && if c.IsEnrolled() then
              err == None && c.transport == Some(NewTransport(TransportOptions(payload.value)))
            else
              err == Some(NotEnrolled) && c.transport == None
  }

  /** Builds a client for a device. A client is returned on every path; the
      error is None exactly when the client is enrolled, and then its transport
      is configured. */
  method NewMDMClient(device: Device, keychain: Keychain, profiles: ProfileStore) returns (c: MDMClient, err: Option<Error>)
    ensures fresh(c)
    ensures Built(c, device, keychain, profiles, err)
    ensures err == None <==> c.IsEnrolled()
    ensures err == None ==> c.transport.Some?
  {
    c := new MDMClient(device, None);
    if device.mdmIdentityKeychainUUID == "" {
      return c, Some(NoIdentityUUID);
    }
    err := c.LoadIdentityFromKeychain(device.mdmIdentityKeychainUUID, keychain);
    if err.Some? {
      return;
    }
    err := c.LoadMDMPayload(device.mdmProfileIdentifier, profiles);
    if err.Some? {
      return;
    }
    var enrolled := c.Enrolled();
    if !enrolled {
      return c, Some(NotEnrolled);
    }
    c.ConfigureTransport();
  }

  /** Builds a client around a payload given by the caller, resolving only the
      identity; the transport is configured when the identity resolves. */
  method NewMDMClientUsingPayload(device: Device, payload: Option<MDMPayload>, keychain: Keychain)
    returns (c: MDMClient, err: Option<Error>)
    // configuring the transport reads the payload, which must then be present
    requires payload == None ==> ResolveIdentity(keychain, device.mdmIdentityKeychainUUID).Err?
    ensures fresh(c) && c.device == device && c.mdmPayload == payload
    ensures var identity := ResolveIdentity(keychain, device.mdmIdentityKeychainUUID);
            if identity.Ok? then
              && err == None
              && c.identityPrivateKey == identity.value.key
              && c.identityCertificate == identity.value.certificate
              && c.transport == Some(NewTransport(TransportOptions(payload.value)))
            else
              && err == Some(identity.error)
              && c.identityPrivateKey == None && c.identityCertificate == None
              && c.transport == None
  {
    c := new MDMClient(device, payload);
    err := c.LoadIdentityFromKeychain(device.mdmIdentityKeychainUUID, keychain);
    if err == None {
      c.ConfigureTransport();
    }
  }

  // ---------------------------------------------------------------------------
  // The client

  class MDMClient {
    const device: Device
    var mdmPayload: Option<MDMPayload>

    var identityCertificate: Option<Certificate>
    var identityPrivateKey: Option<PrivateKey>

    var transport: Option<Transport>

    constructor (device: Device, mdmPayload: Option<MDMPayload>)
      ensures this.device == device && this.mdmPayload == mdmPayload
      ensures identityCertificate == None && identityPrivateKey == None && transport == None
    {
      this.device := device;
      this.mdmPayload := mdmPayload;
      identityCertificate := None;
      identityPrivateKey := None;
      transport := None;
    }

    /** Nothing resolved and nothing configured. */
    ghost predicate Blank()
      reads this
    {
      mdmPayload == None && identityCertificate == None && identityPrivateKey == None && transport == None
    }

    /** The enrollment invariant: both device references set, and a payload, a
        certificate and a private key present. */
    ghost predicate IsEnrolled()
      reads this, device`mdmProfileIdentifier, device`mdmIdentityKeychainUUID
    {
      && device.mdmProfileIdentifier != ""
      && device.mdmIdentityKeychainUUID != ""
      && mdmPayload.Some?
      && identityCertificate.Some?
      && identityPrivateKey.Some?
    }

    /** Resolves the identity of a keychain UUID and, only when all three
        lookups succeed, sets the key and the certificate together. */
    method LoadIdentityFromKeychain(uuid: string, keychain: Keychain) returns (err: Option<Error>)
      modifies this`identityPrivateKey, this`identityCertificate
      ensures var identity := ResolveIdentity(keychain, uuid);
              if identity.Ok? then
                && err == None
                && identityPrivateKey == identity.value.key
                && identityCertificate == identity.value.certificate
              else
                && err == Some(identity.error)
                && identityPrivateKey == old(identityPrivateKey)
                && identityCertificate == old(identityCertificate)
    {
      if uuid == "" {
        return Some(InvalidKeychainUUID);
      }
      var id := LoadKeychainItem(keychain, uuid);
      if id.Err? {
        return Some(id.error);
      }
      var keyItem := LoadKeychainItem(keychain, id.value.identityKeyUUID);
      if keyItem.Err? {
        return Some(keyItem.error);
      }
      var certItem := LoadKeychainItem(keychain, id.value.identityCertificateUUID);
      if certItem.Err? {
        return Some(certItem.error);
      }
      identityPrivateKey := keyItem.value.key;
      identityCertificate := certItem.value.certificate;
      err := None;
    }

    /** Configures the transport from the attached payload. */
    method ConfigureTransport()
      requires mdmPayload.Some?
      modifies this`transport
      ensures transport == Some(NewTransport(TransportOptions(mdmPayload.value)))
      ensures transport.value.identityProvider
      ensures transport.value.serverURL == mdmPayload.value.serverURL
      ensures transport.value.checkInURL == mdmPayload.value.checkInURL
      ensures transport.value.signMessage <==> mdmPayload.value.signMessage
    {
      transport := Some(NewTransport(TransportOptions(mdmPayload.value)));
      ConfiguredTransport(mdmPayload.value);
    }

    /** Attaches the single MDM payload of a profile; on any error the attached
        payload is left as it was. */
    method LoadMDMPayload(profileID: string, profiles: ProfileStore) returns (err: Option<Error>)
      modifies this`mdmPayload
      ensures var payload := ResolvePayload(profiles, profileID);
              if payload.Ok? then err == None && mdmPayload == Some(payload.value)
              else err == Some(payload.error) && mdmPayload == old(mdmPayload)
    {
      if profileID == "" {
        return Some(NoMDMProfileInstalled);
      }
      if profileID !in profiles {
        return Some(ProfileNotFound(profileID));
      }
      var payloads := profiles[profileID];
      if |payloads| != 1 {
        return Some(NotOneMDMPayload(|payloads|));
      }
      mdmPayload := Some(payloads[0]);
      err := None;
    }

    /** Enrolls with signed messages only. The profile identifier is recorded on
        the device only after both the authenticate and the TokenUpdate
        exchanges succeed, whose outcomes are given. */
    method Enroll(profileID: string, authenticate: Option<Error>, tokenUpdate: Option<Error>) returns (err: Option<Error>)
      modifies device`mdmProfileIdentifier
      ensures mdmPayload == None ==> err == Some(NoMDMPayload)
      ensures mdmPayload.Some? && !mdmPayload.value.signMessage ==> err == Some(SignMessageUnsupported)
      ensures mdmPayload.Some? && mdmPayload.value.signMessage ==>
                err == if authenticate.Some? then authenticate else tokenUpdate
      ensures err == None <==>
                mdmPayload.Some? && mdmPayload.value.signMessage && authenticate == None && tokenUpdate == None
      ensures device.mdmProfileIdentifier == if err == None then profileID else old(device.mdmProfileIdentifier)
    {
      if mdmPayload == None {
        return Some(NoMDMPayload);
      }
      if !mdmPayload.value.signMessage {
        return Some(SignMessageUnsupported);
      }
      if authenticate.Some? {
        return authenticate;
      }
      if tokenUpdate.Some? {
        return tokenUpdate;
      }
      device.mdmProfileIdentifier := profileID;
      err := None;
    }

    /** Forgets the identity and the payload and clears both device references;
        never fails. The transport is kept. */
    method Unenroll() returns (err: Option<Error>)
      modifies this`identityPrivateKey, this`identityCertificate, this`mdmPayload
      modifies device`mdmProfileIdentifier, device`mdmIdentityKeychainUUID
      ensures err == None
      ensures identityPrivateKey == None && identityCertificate == None && mdmPayload == None
      ensures device.mdmProfileIdentifier == "" && device.mdmIdentityKeychainUUID == ""
      ensures !IsEnrolled()
    {
      identityPrivateKey := None;
      identityCertificate := None;
      mdmPayload := None;
      device.mdmProfileIdentifier := "";
      device.mdmIdentityKeychainUUID := "";
      err := None;
    }

    /** Runs the five enrollment checks in turn and fails at the first that
        does not hold. */
    method Enrolled() returns (enrolled: bool)
      ensures enrolled <==> IsEnrolled()
    {
      var checks := [
        device.mdmProfileIdentifier != "",
        device.mdmIdentityKeychainUUID != "",
        mdmPayload.Some?,
        identityCertificate.Some?,
        identityPrivateKey.Some?
      ];
      for i := 0 to |checks|
        invariant forall j :: 0 <= j < i ==> checks[j]
      {
        if !checks[i] {
          return false;
        }
      }
      assert checks[0] && checks[1] && checks[2] && checks[3] && checks[4];
      return true;
    }
  }

  // ---------------------------------------------------------------------------
  // Properties of the lifecycle that involve several calls

  /** A build that fails is cached: asking a device without an identity
      reference for its client twice gives one client, first with an error and
      then without. */
  method CachedFailedBuild(device: Device, keychain: Keychain, profiles: ProfileStore)
    returns (first: MDMClient, firstErr: Option<Error>, second: MDMClient, secondErr: Option<Error>)
    requires device.mdmClient == null && device.mdmIdentityKeychainUUID == ""
    modifies device`mdmClient
    ensures firstErr == Some(NoIdentityUUID) && first.Blank() && !first.IsEnrolled()
    ensures second == first && secondErr == None
  {
    first, firstErr := device.MDMClient(keychain, profiles);
    second, secondErr := device.MDMClient(keychain, profiles);
  }

  /** Unenrolling twice ends in the state of unenrolling once, and reports
      success both times. */
  method UnenrollTwice(c: MDMClient) returns (firstErr: Option<Error>, secondErr: Option<Error>)
    modifies c, c.device
    ensures firstErr == None && secondErr == None && !c.IsEnrolled()
    ensures c.identityPrivateKey == None && c.identityCertificate == None && c.mdmPayload == None
    ensures c.device.mdmProfileIdentifier == "" && c.device.mdmIdentityKeychainUUID == ""
    ensures c.transport == old(c.transport) && c.device.mdmClient == old(c.device.mdmClient)
  {
    firstErr := c.Unenroll();
    ghost var once := (c.identityPrivateKey, c.identityCertificate, c.mdmPayload, c.transport,
                       c.device.mdmProfileIdentifier, c.device.mdmIdentityKeychainUUID);
    secondErr := c.Unenroll();
    assert once == (c.identityPrivateKey, c.identityCertificate, c.mdmPayload, c.transport,
                    c.device.mdmProfileIdentifier, c.device.mdmIdentityKeychainUUID);
  }
}
