/** The collaborators of the device core, reduced to the interface the core uses:
    the system keychain (an item store keyed by UUID), the configuration-profile
    store, the MDM transport built from functional options, and the bolt key-value
    database. Certificates and private keys are opaque tokens. */
module Collaborators {

  datatype Option<+T> = None | Some(value: T)

  /** A value or the error that prevented it; usable with `:-`. */
  datatype Result<+T> = Ok(value: T) | Err(error: Error) {
    predicate IsFailure() { Err? }

    function PropagateFailure<U>(): Result<U>
      requires Err?
    {
      Err(error)
    }

    function Extract(): T
      requires Ok?
    {
      value
    }
  }

  /** The error values of the core, one per distinct error the source returns. */
  datatype Error =
    | InvalidKeychainUUID                 // identity lookup with an empty UUID
    | KeychainItemNotFound(uuid: string)  // a keychain lookup found no item
    | NoMDMProfileInstalled               // payload lookup with an empty profile identifier
    | ProfileNotFound(profileID: string)  // the profile store has no such profile
    | NotOneMDMPayload(count: nat)        // the profile holds zero or several MDM payloads
    | NoIdentityUUID                      // the device has no keychain identity reference
    | NotEnrolled                         // the five-field enrollment check failed
    | NoMDMPayload                        // enroll without an attached payload
    | SignMessageUnsupported              // enroll with a payload that does not sign messages
    | ServerError(message: string)        // authenticate or TokenUpdate failed
    | InvalidDevice                       // save of a device without a UDID
    | DeviceNotFound                      // load of a UDID with no stored serial
    | NoDevices                           // list of a store holding no device

  // ---------------------------------------------------------------------------
  // Keychain

  /** Opaque stand-ins for an X.509 certificate and a private key. */
  datatype Certificate = Certificate(id: string)
  datatype PrivateKey = PrivateKey(id: string)

  /** A keychain item. A key item carries a key, a certificate item a certificate,
      and an identity item the UUIDs of the key item and the certificate item it
      groups; the fields an item does not use are empty. */
  datatype KeychainItem = KeychainItem(
    key: Option<PrivateKey>,
    certificate: Option<Certificate>,
    identityKeyUUID: string,
    identityCertificateUUID: string)

  /** The system keychain: its items by UUID. */
  type Keychain = map<string, KeychainItem>

  /** Looks up one keychain item; a missing item is an error. */
  function LoadKeychainItem(keychain: Keychain, uuid: string): Result<KeychainItem>
  {
    if uuid in keychain then Ok(keychain[uuid]) else Err(KeychainItemNotFound(uuid))
  }

  // ---------------------------------------------------------------------------
  // Profiles

  /** The MDM payload of a configuration profile: where the server is, and how
      the device must talk to it. */
  datatype MDMPayload = MDMPayload(
    serverURL: string,
    checkInURL: string,
    signMessage: bool,
    checkOutWhenRemoved: bool)

  /** The system profile store: each installed profile's MDM payloads, by
      profile identifier. */
  type ProfileStore = map<string, seq<MDMPayload>>

  // ---------------------------------------------------------------------------
  // Transport

  /** The options a transport is built from. The identity provider reads the
      client's current certificate and key whenever the transport needs them. */
  datatype TransportOption =
    | WithIdentityProvider
    | WithMDMURLs(serverURL: string, checkInURL: string)
    | WithSignMessage

  /** The configuration of a transport. */
  datatype Transport = Transport(
    identityProvider: bool,
    serverURL: string,
    checkInURL: string,
    signMessage: bool)

  function ApplyOption(t: Transport, option: TransportOption): Transport
  {
    match option
    case WithIdentityProvider => t.(identityProvider := true)
    case WithMDMURLs(server, checkIn) => t.(serverURL := server, checkInURL := checkIn)
    case WithSignMessage => t.(signMessage := true)
  }

  /** Builds a transport by applying the options in order to an unconfigured one;
      a later URL option overrides an earlier one. */
  function NewTransport(options: seq<TransportOption>): (t: Transport)
    ensures t.identityProvider <==> WithIdentityProvider in options
    ensures t.signMessage <==> WithSignMessage in options
    ensures (forall i :: 0 <= i < |options| ==> !options[i].WithMDMURLs?) ==> t.serverURL == "" && t.checkInURL == ""
    ensures forall k :: 0 <= k < |options| && options[k].WithMDMURLs? &&
                        (forall j :: k < j < |options| ==> !options[j].WithMDMURLs?) ==>
              t.serverURL == options[k].serverURL && t.checkInURL == options[k].checkInURL
    decreases |options|
  {
    if options == [] then Transport(false, "", "", false)
    else
      var init, last := options[..|options| - 1], options[|options| - 1];
      assert options == init + [last];
      ApplyOption(NewTransport(init), last)
  }

  // ---------------------------------------------------------------------------
  // Bolt database

  /** The key-value store: (bucket name, key) to value. A bucket that does not
      exist and a bucket without keys look the same. */
  type Store = map<(string, string), string>

  /** Writes a value, or deletes the entry when the value is empty. */
  function PutOrDelete(data: Store, bucket: string, key: string, value: string): (r: Store)
    ensures (bucket, key) in r <==> value != ""
    ensures (bucket, key) in r ==> r[(bucket, key)] == value
    ensures forall p :: p != (bucket, key) ==> (p in r <==> p in data)
    ensures forall p :: p != (bucket, key) && p in r ==> r[p] == data[p]
  {
    if value == "" then data - {(bucket, key)} else data[(bucket, key) := value]
  }

  /** Reads a value; a missing entry reads as the empty string. */
  function Get(data: Store, bucket: string, key: string): (value: string)
    ensures value != "" ==> (bucket, key) in data && data[(bucket, key)] == value
    ensures (bucket, key) in data ==> value == data[(bucket, key)]
  {
    if (bucket, key) in data then data[(bucket, key)] else ""
  }

  /** A bolt database; only the store it holds is modelled. */
  class BoltDB {
    var data: Store

    constructor ()
      ensures data == map[]
    {
      data := map[];
    }

    method PutOrDeleteString(bucket: string, key: string, value: string)
      modifies this
      ensures data == PutOrDelete(old(data), bucket, key, value)
    {
      data := PutOrDelete(data, bucket, key, value);
    }

    method GetString(bucket: string, key: string) returns (value: string)
      ensures value == Get(data, bucket, key)
    {
      value := Get(data, bucket, key);
    }
  }
}
