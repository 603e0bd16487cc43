# Device enrollment core of mdmb, in Dafny

mdmb simulates Apple devices that enroll into an MDM server. This project models
the device core of its `internal/device` package:

- **Device construction** (`device.go`): a device gets a 12-character serial
  drawn from a 33-symbol alphabet (digits and capital letters without I, L and O),
  an upper-case UDID, and a computer name that defaults to `<serial>'s Computer`.
- **The MDM client** (`mdmclient.go`): built lazily per device and cached on it.
  A build resolves the device's identity through three keychain lookups (the
  identity item, then its key item, then its certificate item), attaches the
  single MDM payload of the device's enrollment profile, checks the five-field
  enrollment invariant and configures a transport from the payload. The client
  enrolls (signed-message mode only, committing the profile identifier after
  authenticate and TokenUpdate succeed) and unenrolls (clearing identity,
  payload and both device references).
- **Persistence** (`storage.go`): a device's serial, computer name, keychain
  identity UUID and profile identifier are stored in four bolt buckets keyed by
  UDID; an empty field deletes its entry; loading fails without a stored
  serial; listing fails on an empty store.

Files: `collaborators.dfy` (keychain, profile store, transport options and the
bolt store, as maps and records), `identifiers.dfy` (serial alphabet, serial
generation, upper case), `devices.dfy` (the `Device` and `MDMClient` classes,
which refer to each other, and `New`), `storage.dfy` (`Save`, `Load`, `List`).

The classes follow the source's objects: `Device` and `MDMClient` are Dafny
classes whose methods assign their fields, with `modifies` frames naming exactly
the fields the Go code assigns. The keychain and the profile store are passed to
the client's methods as maps (their contents at the time of the call). The
database is a `BoltDB` object holding a map from (bucket, key) to value.

Notes on what the code does, which the model keeps:

- A failed client build is cached. `newMDMClient` returns a client on every
  path, and `Device.MDMClient` stores it even when the build failed, so a second
  call returns that (unenrolled) client with no error
  (`Devices.CachedFailedBuild`). A cached client is always the device's own
  (`Devices.Device.Valid`), so enrolling or unenrolling through it changes that
  device's references.
- The serial alphabet is the 10 digits and 23 capital letters other than I, L
  and O: 33 symbols.
- The key and the certificate are assigned together, only after all three
  keychain lookups succeed, so a failed lookup never leaves a key set without
  its certificate.
- Identity resolution can succeed with an absent key or certificate (an item
  of the wrong kind); `newMDMClient` then fails its enrollment check, while
  `newMDMClientUsingPayload` does not check and returns no error.
- `unenroll` keeps the configured transport.

## Model

| member | source | states |
|---|---|---|
| Collaborators.NewTransport | internal/device/mdmclient.go:62-72 | a transport built from options has an identity provider iff one is among the options, signs messages iff the sign option is among them, and takes the URLs of the last URL option (empty URLs without one) |
| Collaborators.PutOrDelete | internal/device/storage.go:21-33 | a put-or-delete write stores a non-empty value under its key, removes the key for an empty value, and leaves every other entry as it was |
| Collaborators.Get | internal/device/storage.go:41-47 | a read returns the stored value and the empty string exactly when nothing non-empty is stored |
| Identifiers.SerialAlphabet | internal/device/device.go:44-45 | the serial alphabet has 33 symbols and contains none of I, L, O |
| Identifiers.RandSerial | internal/device/device.go:47-53 | the serial has 12 characters, the i-th being the alphabet letter at the i-th draw, so every character is in the alphabet and none is I, L or O |
| Identifiers.ToUpper | internal/device/device.go:35 | upper-casing keeps the length and leaves no lower-case letter |
| Identifiers.ToUpperFixesUpper | internal/device/device.go:35 | a string without lower-case letters is its own upper case |
| Identifiers.ToUpperIdempotent | internal/device/device.go:35 | upper-casing the UDID again leaves it unchanged |
| Devices.New | internal/device/device.go:31-42 | a new device has the serial of the draws, the upper-cased UUID as UDID (a fixed point of upper-casing), the given name or `<serial>'s Computer` for an empty one, empty enrollment references and no cached client |
| Devices.Device.constructor | internal/device/device.go:32-37 | a device literal has the given identity, empty enrollment references and no client |
| Devices.Device.MDMClient | internal/device/mdmclient.go:159-165 | with no cached client it builds one, caches it whatever the outcome and returns the build's error; with a cached client it returns that same client and no error; either way the client returned belongs to this device |
| Devices.ResolveIdentity | internal/device/mdmclient.go:25-43 | an identity fails for an empty UUID or when any of the three lookups misses, naming the UUID when the identity item is missing; otherwise it is the key of the key item and the certificate of the certificate item |
| Devices.ResolvePayload | internal/device/mdmclient.go:75-86 | a payload resolves iff the profile identifier is non-empty, the profile exists and holds exactly one MDM payload, which is then the result; each failure has its own error |
| Devices.TransportOptions | internal/device/mdmclient.go:63-71 | the options include the identity provider and the payload's URLs, and the sign option iff the payload asks for signed messages |
| Devices.ConfiguredTransport | internal/device/mdmclient.go:58-73 | the transport configured from a payload has an identity provider, the payload's server and check-in URLs, and signs messages iff the payload's flag is set |
| Devices.NewMDMClient | internal/device/mdmclient.go:91-109 | a client is returned on every path; an empty keychain UUID fails before any lookup with a blank client; identity and payload errors are returned as they occur; the error is None iff the client is enrolled, and then the transport is configured |
| Devices.NewMDMClientUsingPayload | internal/device/mdmclient.go:49-56 | the client carries the given payload; when the identity resolves it holds the key and certificate and a configured transport with no error, otherwise the identity error and nothing resolved |
| Devices.MDMClient.constructor | internal/device/mdmclient.go:50 | a client literal refers to its device, holds the given payload and nothing else |
| Devices.MDMClient.LoadIdentityFromKeychain | internal/device/mdmclient.go:25-47 | on success the key and the certificate are set from the resolved identity; on every failure both are left unchanged and the resolution error is returned |
| Devices.MDMClient.ConfigureTransport | internal/device/mdmclient.go:58-73 | the transport takes both URLs from the attached payload and signs messages iff the payload says so |
| Devices.MDMClient.LoadMDMPayload | internal/device/mdmclient.go:75-89 | on success the profile's single payload is attached; on every error the attached payload is unchanged |
| Devices.MDMClient.Enroll | internal/device/mdmclient.go:111-131 | enrolling fails without a payload or with a payload that does not sign messages, then with the authenticate error, then with the TokenUpdate error; the profile identifier is recorded iff no error, and otherwise unchanged |
| Devices.MDMClient.Unenroll | internal/device/mdmclient.go:133-141 | unenrolling never fails, clears key, certificate, payload and both device references, and leaves the client not enrolled |
| Devices.MDMClient.Enrolled | internal/device/mdmclient.go:143-157 | the check holds iff the profile identifier and keychain UUID are non-empty and payload, certificate and key are present |
| Devices.CachedFailedBuild | internal/device/mdmclient.go:159-165 | for a device without an identity reference the first request fails with a blank client and the second returns the same client with no error |
| Devices.UnenrollTwice | internal/device/mdmclient.go:133-141 | a second unenroll succeeds and leaves the state of the first |
| Storage.ValidDevice | internal/device/storage.go:11-13 | a device can be saved iff its UDID is non-empty |
| Collaborators.BoltDB.PutOrDeleteString | internal/device/storage.go:21-33 | one field write replaces the store by its put-or-delete update |
| Collaborators.BoltDB.GetString | internal/device/storage.go:41-47 | one field read returns the stored value, or the empty string when there is none |
| Storage.SavedEntries | internal/device/storage.go:20-34 | after a save each field is stored under the UDID in its own bucket, an empty field as no entry |
| Storage.SavedFrame | internal/device/storage.go:20-34 | a save leaves every entry under another key unchanged |
| Storage.SaveLoadRoundTrip | internal/device/storage.go:16-51 | the fields read back for a UDID after a save are the fields saved, empty ones as empty |
| Storage.Save | internal/device/storage.go:16-35 | a device without a UDID is refused and the store is unchanged; otherwise the store becomes the four put-or-delete writes under its UDID |
| Storage.Load | internal/device/storage.go:38-51 | a device is returned with the UDID; without a stored serial it is not found and its fields are empty, otherwise its fields are those stored |
| Storage.List | internal/device/storage.go:54-70 | the list holds exactly the keys of the serial bucket, each once, and is an error iff it is empty |
| Storage.SaveThenLoad | internal/device/storage.go:16-51 | saving a device with a UDID and a serial and loading its UDID gives back the same fields with no error |

## Left out

- Network: `authenticate` and `TokenUpdate` are not part of this model; their outcomes are inputs of `Enroll`.
- Devices.MDMClient.Enroll: because the two exchanges' outcomes are inputs, the model does not show that TokenUpdate is never sent when authenticate fails.
- Cancellation through `context.Context` is not modelled.
- Cryptography: certificates and private keys are opaque tokens; no signing, no TLS.
- The transport's identity provider is a flag; that it reads the client's current key and certificate at each handshake is not modelled.
- `protocol.NewTransport` is not part of this model; it is modelled as applying the options in order to a configuration record.
- The `c == nil` guard of `configureTransport` is dropped: clients are never null here.
- Devices.NewMDMClientUsingPayload: requires a payload whenever the identity resolves, because the source would dereference a nil payload there.
- `SystemKeychain()` and `SystemProfileStore()` are not part of this model; their contents are map parameters. Profile parsing is reduced to each profile's list of MDM payloads.
- `LoadKeychainItem`'s and the profile store's own error values are not part of this model; a missing item or profile gives one error naming the key.
- bbolt: transactions, their atomicity and failure, and bucket creation are not modelled; a missing bucket and an empty one are the same, which `List` treats alike anyway.
- Storage.Save: write failures inside the transaction are not modelled, so a valid save always succeeds.
- Storage.List: states the set of UDIDs and that each appears once, not bolt's byte order of keys.
- Randomness: `rand.Intn`'s draws and `uuid.NewString`'s string are inputs of `New`.
- Identifiers.ToUpper: maps only ASCII letters, where Go's `strings.ToUpper` maps all Unicode letters; the UUID strings it is applied to are ASCII.
- The attestation CA, the unused `notNow` field, and concurrent access to the cached client are not modelled.
