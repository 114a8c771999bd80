/** The Key Locker credential store of jc/key_locker.py.

    Four pieces of persisted state make up the store:
    - keys-meta.json, a JSON object from key id to metadata record (`meta`,
      with `order` keeping the object's key order, which Python's dict keeps);
    - the platform keyring, entries under one service name keyed by id (`vault`);
    - secrets.enc, the whole id -> secret map sealed under a passphrase
      (`secretsFile`, absent until the file backend is first written);
    - keys-audit.log, an append-only list of audit entries (`audit`).
    Whether the keyring library is importable and the value of
    JC_SECRETS_PASSPHRASE are fixed for the process (`keyringAvailable`,
    `envPassphrase`). The clock and uuid4 are parameters (`now`, `freshId`).

    The facade operations are specified by functions on a `Store` value
    (`AddSpec`, `ListSpec`, ...), which the lemmas below reason about, and
    carried out step by step, in the source's order of effects, by the
    methods of class `Locker`. */
module KeyLocker {
  import opened Wrappers
  import opened Text
  import Sorting

  /** The storage tag written into each record when it is added. */
  datatype Storage = Keyring | File

  /** One record of keys-meta.json (KeyMetadata); it has no place for the secret. */
  datatype Meta = Meta(
    id: string,
    name: string,
    provider: string,
    createdAt: int,
    storage: Storage,
    budgetUsd: Option<real>,
    notes: Option<string>,
    lastUsedAt: Option<int>,
    updatedAt: Option<int>)

  datatype Action = Add | Delete | Edit

  /** The `data` object of an audit line: name, provider and (for "add") storage. */
  datatype AuditData = AuditData(name: string, provider: string, storage: Option<Storage>)

  datatype AuditEntry = AuditEntry(at: int, action: Action, keyId: string, data: AuditData)

  /** The contents of secrets.enc. Fernet under a PBKDF2 key with a fresh salt
      is modelled as a box that opens only with the passphrase it was sealed with. */
  datatype Sealed = Sealed(passphrase: string, secrets: map<string, string>)

  /** Which of add_key's three ValueError checks failed. */
  datatype Missing = NameRequired | ProviderRequired | SecretRequired

  datatype LockerError =
    | Invalid(missing: Missing)   // ValueError raised by add_key's input checks
    | NotFound                    // KeyError("Key not found")
    | PassphraseRequired          // ValueError raised by _require_passphrase
    | DecryptFailed               // Fernet's InvalidToken: the blob was sealed under another passphrase
    | KeyringUnavailable          // RuntimeError("Keyring module not available")
    | SecretMissing               // ValueError("Secret missing or encrypted")
    | VaultEntryMissing           // the keyring's error for deleting an entry it does not hold

  /** A snapshot of everything the store keeps. */
  datatype Store = Store(
    meta: map<string, Meta>,
    order: seq<string>,
    vault: map<string, string>,
    secretsFile: Option<Sealed>,
    keyringAvailable: bool,
    envPassphrase: Option<string>,
    audit: seq<AuditEntry>)

  /** The store after an operation, and what the operation returned or raised. */
  datatype Outcome<T> = Outcome(store: Store, result: Result<T, LockerError>)

  /** The metadata object's keys are exactly `order`, without repeats, and
      each record is filed under its own id. */
  ghost predicate WellFormed(st: Store) {
    Distinct(st.order) &&
    (forall id :: id in st.meta <==> id in st.order) &&
    (forall id :: id in st.meta ==> st.meta[id].id == id)
  }

  /** The same persistent configuration (keyring, environment) in both stores. */
  predicate SameConfig(a: Store, b: Store) {
    a.keyringAvailable == b.keyringAvailable && a.envPassphrase == b.envPassphrase
  }

  // ---------------------------------------------------------------------------
  // Pure helpers: passphrase, provider names, the sealed secret map
  // ---------------------------------------------------------------------------

  /** Python truthiness of an optional string argument. */
  predicate Given(s: Option<string>) {
    s.Some? && s.value != []
  }

  /** `_require_passphrase`: the argument unless it is missing or empty, then
      JC_SECRETS_PASSPHRASE, else a ValueError. */
  function ResolvePassphrase(passphrase: Option<string>, env: Option<string>): (r: Result<string, LockerError>)
    ensures r.Ok? <==> Given(passphrase) || Given(env)
    ensures Given(passphrase) ==> r == Ok(passphrase.value)
    ensures !Given(passphrase) && Given(env) ==> r == Ok(env.value)
    ensures r.Err? ==> r.error == PassphraseRequired
  {
    if Given(passphrase) then Ok(passphrase.value)
    else if Given(env) then Ok(env.value)
    else Err(PassphraseRequired)
  }

  /** `_sanitize_provider`: stripped and lower-cased. */
  function SanitizeProvider(provider: string): string {
    Lower(Strip(provider))
  }

  /** A sanitised provider has no upper-case ASCII letter, is as long as the
      stripped argument, and is empty exactly when the argument is blank. */
  lemma SanitizedProviderShape(provider: string)
    ensures var r := SanitizeProvider(provider);
            IsLower(r) && |r| == |Strip(provider)| && (r == [] <==> IsBlank(provider))
  {
    StripEmptyIffBlank(provider);
    LowerIsLower(Strip(provider));
  }

  /** `_pick_storage`. */
  function PickStorage(keyringAvailable: bool): (s: Storage)
    ensures s == Keyring <==> keyringAvailable
  {
    if keyringAvailable then Keyring else File
  }

  /** `_load_secret_map`: a missing file is an empty map; a blob sealed under
      another passphrase fails with a decryption error, not as "missing". */
  function LoadSecretMap(file: Option<Sealed>, passphrase: string): (r: Result<map<string, string>, LockerError>)
    ensures file.None? ==> r == Ok(map[])
    ensures file.Some? ==> (r.Ok? <==> file.value.passphrase == passphrase)
    ensures r.Ok? && file.Some? ==> r.value == file.value.secrets
    ensures r.Err? ==> r.error == DecryptFailed
  {
    match file
    case None => Ok(map[])
    case Some(blob) => if blob.passphrase == passphrase then Ok(blob.secrets) else Err(DecryptFailed)
  }

  /** `_set_secret_file_value`: the file after storing `secret` under `keyId`. */
  function SetFileValue(file: Option<Sealed>, keyId: string, secret: string, passphrase: string): (r: Result<Sealed, LockerError>)
    ensures r.Ok? <==> LoadSecretMap(file, passphrase).Ok?
    ensures r.Ok? ==> r.value.passphrase == passphrase &&
                      r.value.secrets == LoadSecretMap(file, passphrase).value[keyId := secret]
    ensures r.Err? ==> r.error == DecryptFailed
  {
    match LoadSecretMap(file, passphrase)
    case Err(e) => Err(e)
    case Ok(data) => Ok(Sealed(passphrase, data[keyId := secret]))
  }

  /** `_delete_secret_file_value`: the file after removing `keyId`; the file is
      rewritten only when it held that id. */
  function DeleteFileValue(file: Option<Sealed>, keyId: string, passphrase: string): (r: Result<Option<Sealed>, LockerError>)
    ensures r.Ok? <==> LoadSecretMap(file, passphrase).Ok?
    ensures r.Ok? && keyId !in LoadSecretMap(file, passphrase).value ==> r.value == file
    ensures r.Ok? && keyId in LoadSecretMap(file, passphrase).value ==>
              r.value == Some(Sealed(passphrase, LoadSecretMap(file, passphrase).value - {keyId}))
    ensures r.Err? ==> r.error == DecryptFailed
  {
    match LoadSecretMap(file, passphrase)
    case Err(e) => Err(e)
    case Ok(data) => if keyId in data then Ok(Some(Sealed(passphrase, data - {keyId}))) else Ok(file)
  }

  /** `_get_secret_file_value`. */
  function GetFileValue(file: Option<Sealed>, keyId: string, passphrase: string): (r: Result<Option<string>, LockerError>)
    ensures r.Ok? <==> LoadSecretMap(file, passphrase).Ok?
    ensures r.Ok? ==> (r.value.Some? <==> keyId in LoadSecretMap(file, passphrase).value)
    ensures r.Ok? && r.value.Some? ==> r.value.value == LoadSecretMap(file, passphrase).value[keyId]
  {
    match LoadSecretMap(file, passphrase)
    case Err(e) => Err(e)
    case Ok(data) => Ok(if keyId in data then Some(data[keyId]) else None)
  }

  /** `keyring.get_password`: None when the keyring holds no entry. */
  function VaultGet(vault: map<string, string>, keyId: string): Option<string> {
    if keyId in vault then Some(vault[keyId]) else None
  }

  /** `list(data.values())`: the records in the metadata object's key order. */
  function Records(order: seq<string>, meta: map<string, Meta>): (r: seq<Meta>)
    requires forall i :: 0 <= i < |order| ==> order[i] in meta
    ensures |r| == |order|
    ensures forall i :: 0 <= i < |order| ==> r[i] == meta[order[i]]
  {
    seq(|order|, i requires 0 <= i < |order| => meta[order[i]])
  }

  function CreatedAt(m: Meta): int {
    m.createdAt
  }

  /** Index of the first record whose provider is `provider`, or |records| if none. */
  function FirstIndexWithProvider(records: seq<Meta>, provider: string): (i: nat)
    ensures i <= |records|
    ensures i < |records| ==> records[i].provider == provider
    ensures forall j :: 0 <= j < i ==> records[j].provider != provider
  {
    if records == [] then 0
    else if records[0].provider == provider then 0
    else 1 + FirstIndexWithProvider(records[1..], provider)
  }

  // ---------------------------------------------------------------------------
  // Steps shared by the facade operations
  // ---------------------------------------------------------------------------

  /** Writing a secret to the backend `storage` names (the write step of
      add_key and edit_key): the keyring entry, or a read-modify-write of
      secrets.enc under the resolved passphrase. Nothing else changes. */
  function WriteSecret(st: Store, storage: Storage, keyId: string, secret: string, passphrase: Option<string>)
    : (r: Result<Store, LockerError>)
    ensures r.Ok? ==> r.value == st.(vault := r.value.vault, secretsFile := r.value.secretsFile)
  {
    if storage == Keyring then
      if st.keyringAvailable then Ok(st.(vault := st.vault[keyId := secret])) else Err(KeyringUnavailable)
    else
      match ResolvePassphrase(passphrase, st.envPassphrase)
      case Err(e) => Err(e)
      case Ok(p) =>
        match SetFileValue(st.secretsFile, keyId, secret, p)
        case Err(e) => Err(e)
        case Ok(blob) => Ok(st.(secretsFile := Some(blob)))
  }

  /** What writing a secret does in each backend, and when it fails. */
  lemma WriteSecretEffect(st: Store, storage: Storage, keyId: string, secret: string, passphrase: Option<string>)
    ensures var r := WriteSecret(st, storage, keyId, secret, passphrase);
            storage == Keyring ==>
              (r.Ok? <==> st.keyringAvailable) &&
              (r.Ok? ==> r.value.vault == st.vault[keyId := secret] && r.value.secretsFile == st.secretsFile) &&
              (r.Err? ==> r.error == KeyringUnavailable)
    ensures var r := WriteSecret(st, storage, keyId, secret, passphrase);
            var p := ResolvePassphrase(passphrase, st.envPassphrase);
            storage == File ==>
              (r.Ok? <==> p.Ok? && LoadSecretMap(st.secretsFile, p.value).Ok?) &&
              (r.Ok? ==> r.value.vault == st.vault &&
                         r.value.secretsFile == Some(Sealed(p.value, LoadSecretMap(st.secretsFile, p.value).value[keyId := secret]))) &&
              (r.Err? ==> r.error == (if p.Err? then PassphraseRequired else DecryptFailed))
  {
  }

  /** Removing a secret from the backend `storage` names (the second step of
      delete_key). Without the keyring library a keyring entry is left alone;
      with it, an absent entry is an error. Nothing else changes. */
  function RemoveSecret(st: Store, storage: Storage, keyId: string, passphrase: Option<string>)
    : (r: Result<Store, LockerError>)
    ensures r.Ok? ==> r.value == st.(vault := r.value.vault, secretsFile := r.value.secretsFile)
  {
    if storage == Keyring then
      if !st.keyringAvailable then Ok(st)
      else if keyId in st.vault then Ok(st.(vault := st.vault - {keyId}))
      else Err(VaultEntryMissing)
    else
      match ResolvePassphrase(passphrase, st.envPassphrase)
      case Err(e) => Err(e)
      case Ok(p) =>
        match DeleteFileValue(st.secretsFile, keyId, p)
        case Err(e) => Err(e)
        case Ok(file) => Ok(st.(secretsFile := file))
  }

  /** What removing a secret does in each backend, and when it fails: once it
      completes, the opened secrets file no longer holds the id. */
  lemma RemoveSecretEffect(st: Store, storage: Storage, keyId: string, passphrase: Option<string>)
    ensures var r := RemoveSecret(st, storage, keyId, passphrase);
            storage == Keyring ==>
              (r.Err? <==> st.keyringAvailable && keyId !in st.vault) &&
              (r.Err? ==> r.error == VaultEntryMissing) &&
              (r.Ok? ==> r.value.secretsFile == st.secretsFile &&
                         r.value.vault == if st.keyringAvailable then st.vault - {keyId} else st.vault)
    ensures var r := RemoveSecret(st, storage, keyId, passphrase);
            var p := ResolvePassphrase(passphrase, st.envPassphrase);
            storage == File ==>
              (r.Ok? <==> p.Ok? && LoadSecretMap(st.secretsFile, p.value).Ok?) &&
              (r.Ok? ==> r.value.vault == st.vault &&
                         LoadSecretMap(r.value.secretsFile, p.value) == Ok(LoadSecretMap(st.secretsFile, p.value).value - {keyId})) &&
              (r.Err? ==> r.error == (if p.Err? then PassphraseRequired else DecryptFailed))
  {
    if storage == File && ResolvePassphrase(passphrase, st.envPassphrase).Ok? {
      var p := ResolvePassphrase(passphrase, st.envPassphrase).value;
      if LoadSecretMap(st.secretsFile, p).Ok? {
        var data := LoadSecretMap(st.secretsFile, p).value;
        assert keyId !in data ==> data - {keyId} == data;
      }
    }
  }

  /** Reading a secret from the backend `storage` names (get_secret's fetch). */
  function ReadSecret(st: Store, storage: Storage, keyId: string, passphrase: Option<string>)
    : Result<Option<string>, LockerError>
  {
    if storage == Keyring then
      if st.keyringAvailable then Ok(VaultGet(st.vault, keyId)) else Err(KeyringUnavailable)
    else
      match ResolvePassphrase(passphrase, st.envPassphrase)
      case Err(e) => Err(e)
      case Ok(p) => GetFileValue(st.secretsFile, keyId, p)
  }

  /** `data[key_id] = record` followed by `_write_metadata`: an existing key
      keeps its place in the object, a new one goes last. */
  function Put(st: Store, m: Meta): (r: Store)
    requires WellFormed(st)
    ensures WellFormed(r)
    ensures r.meta == st.meta[m.id := m]
    ensures r.order == if m.id in st.meta then st.order else st.order + [m.id]
    ensures r == st.(meta := r.meta, order := r.order)
  {
    if m.id in st.meta then st.(meta := st.meta[m.id := m])
    else st.(meta := st.meta[m.id := m], order := st.order + [m.id])
  }

  /** `data.pop(key_id)` followed by `_write_metadata`. */
  function Popped(st: Store, keyId: string): (r: Store)
    requires WellFormed(st)
    ensures WellFormed(r)
    ensures r.meta == st.meta - {keyId} && r.order == RemoveId(st.order, keyId)
    ensures r == st.(meta := r.meta, order := r.order)
  {
    st.(meta := st.meta - {keyId}, order := RemoveId(st.order, keyId))
  }

  /** `_audit`: one more line in the log. */
  function Logged(st: Store, entry: AuditEntry): (r: Store)
    ensures WellFormed(st) ==> WellFormed(r)
  {
    st.(audit := st.audit + [entry])
  }

  /** `order` without `keyId` (what `dict.pop` leaves of the key order). */
  function RemoveId(order: seq<string>, keyId: string): (r: seq<string>)
    ensures forall x :: x in r <==> x in order && x != keyId
    ensures Distinct(order) ==> Distinct(r)
  {
    if order == [] then []
    else
      var rest := RemoveId(order[1..], keyId);
      assert Distinct(order) ==> Distinct(order[1..]) && order[0] !in order[1..];
      if order[0] == keyId then rest else [order[0]] + rest
  }

  // ---------------------------------------------------------------------------
  // The facade operations as functions on a store
  // ---------------------------------------------------------------------------

  /** add_key's three input checks, in order (`not name.strip()`, ...). */
  function Validate(name: string, provider: string, secret: string): Option<Missing> {
    if Strip(name) == [] then Some(NameRequired)
    else if Strip(provider) == [] then Some(ProviderRequired)
    else if secret == [] then Some(SecretRequired)
    else None
  }

  /** The checks reject a blank name first, then a blank provider, then an
      empty secret, and pass everything else. */
  lemma ValidateOrder(name: string, provider: string, secret: string)
    ensures Validate(name, provider, secret) == Some(NameRequired) <==> IsBlank(name)
    ensures Validate(name, provider, secret) == Some(ProviderRequired) <==> !IsBlank(name) && IsBlank(provider)
    ensures Validate(name, provider, secret) == Some(SecretRequired) <==>
              !IsBlank(name) && !IsBlank(provider) && secret == []
    ensures Validate(name, provider, secret).None? <==> !IsBlank(name) && !IsBlank(provider) && secret != []
  {
    StripEmptyIffBlank(name);
    StripEmptyIffBlank(provider);
  }

  /** The record add_key writes. */
  function NewRecord(keyId: string, name: string, provider: string, now: int, storage: Storage,
                     budgetUsd: Option<real>, notes: Option<string>): Meta
  {
    Meta(keyId, Strip(name), SanitizeProvider(provider), now, storage, budgetUsd, notes, None, None)
  }

  /** `add_key`: validate, write the secret, then the metadata, then one audit
      line. Every failure happens before anything is written. */
  function AddSpec(st: Store, name: string, provider: string, secret: string, budgetUsd: Option<real>,
                   passphrase: Option<string>, notes: Option<string>, keyId: string, now: int): (o: Outcome<Meta>)
    requires WellFormed(st) && keyId !in st.meta
    ensures WellFormed(o.store) && SameConfig(o.store, st)
    ensures o.result.Err? ==> o.store == st
  {
    match Validate(name, provider, secret)
    case Some(missing) => Outcome(st, Err(Invalid(missing)))
    case None =>
      var m := NewRecord(keyId, name, provider, now, PickStorage(st.keyringAvailable), budgetUsd, notes);
      match WriteSecret(st, m.storage, keyId, secret, passphrase)
      case Err(e) => Outcome(st, Err(e))
      case Ok(st1) =>
        Outcome(Logged(Put(st1, m), AuditEntry(now, Add, keyId, AuditData(m.name, m.provider, Some(m.storage)))), Ok(m))
  }

  /** `list_keys`: every record, sorted by created_at (stable, so ties keep the
      metadata object's order); without a keyring a passphrase must resolve,
      although it is never checked against secrets.enc. */
  function ListSpec(st: Store, passphrase: Option<string>): (r: Result<seq<Meta>, LockerError>)
    requires WellFormed(st)
    ensures r.Err? <==> !st.keyringAvailable && ResolvePassphrase(passphrase, st.envPassphrase).Err?
    ensures r.Err? ==> r.error == PassphraseRequired
    ensures r.Ok? ==> Sorting.SortedBy(r.value, CreatedAt)
    ensures r.Ok? ==> multiset(r.value) == multiset(Records(st.order, st.meta))
  {
    if !st.keyringAvailable && ResolvePassphrase(passphrase, st.envPassphrase).Err? then Err(PassphraseRequired)
    else Ok(Sorting.SortBy(Records(st.order, st.meta), CreatedAt))
  }

  /** `get_secret`: follow the record's storage tag; an empty or absent value
      is an error, so a returned secret is never empty. */
  function SecretSpec(st: Store, keyId: string, passphrase: Option<string>): (r: Result<string, LockerError>)
    ensures keyId !in st.meta ==> r == Err(NotFound)
    ensures r.Ok? ==> r.value != [] && keyId in st.meta
    ensures r.Ok? && st.meta[keyId].storage == Keyring ==>
              st.keyringAvailable && keyId in st.vault && r.value == st.vault[keyId]
    ensures r.Ok? && st.meta[keyId].storage == File ==>
              ResolvePassphrase(passphrase, st.envPassphrase).Ok? && st.secretsFile.Some? &&
              st.secretsFile.value.passphrase == ResolvePassphrase(passphrase, st.envPassphrase).value &&
              keyId in st.secretsFile.value.secrets && r.value == st.secretsFile.value.secrets[keyId]
    ensures keyId in st.meta && ReadSecret(st, st.meta[keyId].storage, keyId, passphrase) in {Ok(None), Ok(Some([]))} ==>
              r == Err(SecretMissing)
    ensures keyId in st.meta && ReadSecret(st, st.meta[keyId].storage, keyId, passphrase).Err? ==>
              r == Err(ReadSecret(st, st.meta[keyId].storage, keyId, passphrase).error)
    ensures keyId in st.meta && st.meta[keyId].storage == Keyring && !st.keyringAvailable ==> r == Err(KeyringUnavailable)
  {
    if keyId !in st.meta then Err(NotFound)
    else
      match ReadSecret(st, st.meta[keyId].storage, keyId, passphrase)
      case Err(e) => Err(e)
      case Ok(s) => if s.None? || s.value == [] then Err(SecretMissing) else Ok(s.value)
  }

  /** The converse of SecretSpec's contract: get_secret succeeds whenever the
      backend the record names holds a non-empty value under the id, and it
      returns that value. */
  lemma SecretSpecSucceeds(st: Store, keyId: string, passphrase: Option<string>)
    requires keyId in st.meta
    ensures st.meta[keyId].storage == Keyring && st.keyringAvailable && keyId in st.vault && st.vault[keyId] != [] ==>
              SecretSpec(st, keyId, passphrase) == Ok(st.vault[keyId])
    ensures var p := ResolvePassphrase(passphrase, st.envPassphrase);
            st.meta[keyId].storage == File && p.Ok? && st.secretsFile.Some? &&
            st.secretsFile.value.passphrase == p.value &&
            keyId in st.secretsFile.value.secrets && st.secretsFile.value.secrets[keyId] != [] ==>
              SecretSpec(st, keyId, passphrase) == Ok(st.secretsFile.value.secrets[keyId])
  {
    if st.meta[keyId].storage == Keyring && st.keyringAvailable && keyId in st.vault {
      assert ReadSecret(st, Keyring, keyId, passphrase) == Ok(Some(st.vault[keyId]));
    }
  }

  /** What get_key returns: the record and `secret_available`. */
  datatype KeyView = KeyView(record: Meta, secretAvailable: bool)

  /** `get_key`: a record is only ever reported with `secret_available` true;
      every way the secret could be unavailable raises instead. */
  function GetKeySpec(st: Store, keyId: string, passphrase: Option<string>): (r: Result<KeyView, LockerError>)
    ensures r.Ok? <==> SecretSpec(st, keyId, passphrase).Ok?
    ensures r.Err? ==> r.error == SecretSpec(st, keyId, passphrase).error
    ensures r.Ok? ==> keyId in st.meta && r.value.record == st.meta[keyId] && r.value.secretAvailable
  {
    if keyId !in st.meta then Err(NotFound)
    else
      match SecretSpec(st, keyId, passphrase)
      case Err(e) => Err(e)
      case Ok(s) => Ok(KeyView(st.meta[keyId], s != []))
  }

  /** `delete_key`: the metadata entry goes first; only then is the secret
      removed, and the audit line comes last. */
  function DeleteSpec(st: Store, keyId: string, passphrase: Option<string>, now: int): (o: Outcome<()>)
    requires WellFormed(st)
    ensures WellFormed(o.store) && SameConfig(o.store, st)
    ensures keyId !in st.meta ==> o == Outcome(st, Err(NotFound))
  {
    if keyId !in st.meta then Outcome(st, Err(NotFound))
    else
      var entry := st.meta[keyId];
      var st1 := Popped(st, keyId);
      match RemoveSecret(st1, entry.storage, keyId, passphrase)
      case Err(e) => Outcome(st1, Err(e))
      case Ok(st2) =>
        Outcome(Logged(st2, AuditEntry(now, Delete, keyId, AuditData(entry.name, entry.provider, None))), Ok(()))
  }

  /** The record edit_key writes back: a truthy name or provider replaces the
      old one, a given budget replaces the old one, updated_at is stamped. */
  function Edited(e: Meta, name: Option<string>, provider: Option<string>, budgetUsd: Option<real>, now: int): Meta {
    e.(name := if Given(name) then Strip(name.value) else e.name,
       provider := if Given(provider) then SanitizeProvider(provider.value) else e.provider,
       budgetUsd := if budgetUsd.Some? then budgetUsd else e.budgetUsd,
       updatedAt := Some(now))
  }

  /** `edit_key`: the record is rewritten first; a new secret (even an empty
      one) then goes to the backend the record names; one audit line last. */
  function EditSpec(st: Store, keyId: string, name: Option<string>, provider: Option<string>,
                    budgetUsd: Option<real>, secret: Option<string>, passphrase: Option<string>,
                    now: int): (o: Outcome<Meta>)
    requires WellFormed(st)
    ensures WellFormed(o.store) && SameConfig(o.store, st) && o.store.order == st.order
    ensures keyId !in st.meta ==> o == Outcome(st, Err(NotFound))
  {
    if keyId !in st.meta then Outcome(st, Err(NotFound))
    else
      var e := Edited(st.meta[keyId], name, provider, budgetUsd, now);
      var st1 := Put(st, e);
      var written := if secret.None? then Ok(st1) else WriteSecret(st1, e.storage, keyId, secret.value, passphrase);
      match written
      case Err(err) => Outcome(st1, Err(err))
      case Ok(st2) => Outcome(Logged(st2, AuditEntry(now, Edit, keyId, AuditData(e.name, e.provider, None))), Ok(e))
  }

  /** `touch_key`: stamps last_used_at; an unknown id is silently ignored. */
  function TouchSpec(st: Store, keyId: string, now: int): (r: Store)
    requires WellFormed(st)
    ensures WellFormed(r)
    ensures keyId !in st.meta ==> r == st
    ensures r.meta.Keys == st.meta.Keys && r.order == st.order
    ensures keyId in st.meta ==>
              r.meta[keyId] == st.meta[keyId].(lastUsedAt := Some(now)) &&
              forall id :: id in st.meta && id != keyId ==> r.meta[id] == st.meta[id]
    ensures r.vault == st.vault && r.secretsFile == st.secretsFile && r.audit == st.audit && SameConfig(r, st)
  {
    if keyId !in st.meta then st
    else Put(st, st.meta[keyId].(lastUsedAt := Some(now)))
  }

  /** `find_key_for_provider`: the first listed record whose provider equals
      the sanitised argument. */
  function FindSpec(st: Store, provider: string, passphrase: Option<string>): (r: Result<Option<Meta>, LockerError>)
    requires WellFormed(st)
    ensures r.Err? <==> ListSpec(st, passphrase).Err?
  {
    match ListSpec(st, passphrase)
    case Err(e) => Err(e)
    case Ok(keys) =>
      var i := FirstIndexWithProvider(keys, SanitizeProvider(provider));
      Ok(if i < |keys| then Some(keys[i]) else None)
  }

  // ---------------------------------------------------------------------------
  // Properties of the operations
  // ---------------------------------------------------------------------------

  /** add_key fails exactly when an input check fails or the secret cannot be
      written, and its input checks come first, in the source's order. */
  lemma AddFailsOnlyBeforeWriting(st: Store, name: string, provider: string, secret: string, budgetUsd: Option<real>,
                                  passphrase: Option<string>, notes: Option<string>, keyId: string, now: int)
    requires WellFormed(st) && keyId !in st.meta
    ensures var o := AddSpec(st, name, provider, secret, budgetUsd, passphrase, notes, keyId, now);
            (IsBlank(name) ==> o == Outcome(st, Err(Invalid(NameRequired)))) &&
            (!IsBlank(name) && IsBlank(provider) ==> o == Outcome(st, Err(Invalid(ProviderRequired)))) &&
            (!IsBlank(name) && !IsBlank(provider) && secret == [] ==> o == Outcome(st, Err(Invalid(SecretRequired)))) &&
            (o.result.Ok? <==>
               !IsBlank(name) && !IsBlank(provider) && secret != [] &&
               (st.keyringAvailable ||
                (ResolvePassphrase(passphrase, st.envPassphrase).Ok? &&
                 LoadSecretMap(st.secretsFile, ResolvePassphrase(passphrase, st.envPassphrase).value).Ok?)))
  {
    ValidateOrder(name, provider, secret);
    WriteSecretEffect(st, PickStorage(st.keyringAvailable), keyId, secret, passphrase);
  }

  /** A successful add_key stores the stripped name and sanitised provider
      under the fresh id, puts the secret under that id only, and appends one
      audit line that holds no secret. */
  lemma AddWritesRecordSecretAndAudit(st: Store, name: string, provider: string, secret: string, budgetUsd: Option<real>,
                                      passphrase: Option<string>, notes: Option<string>, keyId: string, now: int)
    requires WellFormed(st) && keyId !in st.meta
    requires AddSpec(st, name, provider, secret, budgetUsd, passphrase, notes, keyId, now).result.Ok?
    ensures var o := AddSpec(st, name, provider, secret, budgetUsd, passphrase, notes, keyId, now);
            var m := o.result.value;
            m.id == keyId && m.name == Strip(name) && m.provider == SanitizeProvider(provider) &&
            m.createdAt == now && m.storage == PickStorage(st.keyringAvailable) &&
            m.lastUsedAt.None? && m.updatedAt.None? &&
            o.store.meta == st.meta[keyId := m] && o.store.order == st.order + [keyId] &&
            o.store.audit == st.audit + [AuditEntry(now, Add, keyId, AuditData(m.name, m.provider, Some(m.storage)))] &&
            (st.keyringAvailable ==> o.store.vault == st.vault[keyId := secret] && o.store.secretsFile == st.secretsFile) &&
            (!st.keyringAvailable ==>
               var p := ResolvePassphrase(passphrase, st.envPassphrase).value;
               o.store.vault == st.vault &&
               o.store.secretsFile == Some(Sealed(p, LoadSecretMap(st.secretsFile, p).value[keyId := secret])))
  {
    ValidateOrder(name, provider, secret);
    WriteSecretEffect(st, PickStorage(st.keyringAvailable), keyId, secret, passphrase);
  }

  /** A secret that add_key accepted is what get_secret returns for the new id
      given the same passphrase argument, and get_key reports it available. */
  lemma AddThenGetSecret(st: Store, name: string, provider: string, secret: string, budgetUsd: Option<real>,
                         passphrase: Option<string>, notes: Option<string>, keyId: string, now: int)
    requires WellFormed(st) && keyId !in st.meta
    requires AddSpec(st, name, provider, secret, budgetUsd, passphrase, notes, keyId, now).result.Ok?
    ensures var o := AddSpec(st, name, provider, secret, budgetUsd, passphrase, notes, keyId, now);
            SecretSpec(o.store, keyId, passphrase) == Ok(secret) &&
            GetKeySpec(o.store, keyId, passphrase) == Ok(KeyView(o.result.value, true))
  {
    var o := AddSpec(st, name, provider, secret, budgetUsd, passphrase, notes, keyId, now);
    AddWritesRecordSecretAndAudit(st, name, provider, secret, budgetUsd, passphrase, notes, keyId, now);
    if !st.keyringAvailable {
      var p := ResolvePassphrase(passphrase, st.envPassphrase).value;
      assert ReadSecret(o.store, File, keyId, passphrase) == Ok(Some(secret));
    } else {
      assert ReadSecret(o.store, Keyring, keyId, passphrase) == Ok(Some(secret));
    }
  }

  /** list_keys returns each record of the metadata file once, and nothing else. */
  lemma ListedExactly(st: Store, passphrase: Option<string>)
    requires WellFormed(st) && ListSpec(st, passphrase).Ok?
    ensures forall m :: m in ListSpec(st, passphrase).value <==> m.id in st.meta && st.meta[m.id] == m
    ensures |ListSpec(st, passphrase).value| == |st.meta|
  {
    var rs := Records(st.order, st.meta);
    var l := ListSpec(st, passphrase).value;
    forall m
      ensures m in l <==> m.id in st.meta && st.meta[m.id] == m
    {
      assert m in l <==> m in multiset(l);
      if m.id in st.meta && st.meta[m.id] == m {
        var i :| 0 <= i < |st.order| && st.order[i] == m.id;
        assert rs[i] == m;
      }
    }
    OrderCoversMeta(st.order, st.meta);
  }

  /** A distinct key order naming exactly the keys of `meta` is as long as `meta`. */
  lemma {:induction false} OrderCoversMeta(order: seq<string>, meta: map<string, Meta>)
    requires Distinct(order) && forall id :: id in meta <==> id in order
    ensures |order| == |meta|
  {
    if order == [] {
      assert meta.Keys == {};
    } else {
      var id := order[0];
      assert Distinct(order[1..]);
      assert id !in order[1..];
      OrderCoversMeta(order[1..], meta - {id});
    }
  }

  /** list_keys keeps records with equal created_at in the metadata object's order. */
  lemma {:induction false} ListKeepsTiesInOrder(st: Store, passphrase: Option<string>, t: int)
    requires WellFormed(st) && ListSpec(st, passphrase).Ok?
    ensures Sorting.WithKey(ListSpec(st, passphrase).value, CreatedAt, t)
            == Sorting.WithKey(Records(st.order, st.meta), CreatedAt, t)
  {
    Sorting.SortByStable(Records(st.order, st.meta), CreatedAt, t);
  }

  /** An added key is listed straight away. */
  lemma AddedKeyIsListed(st: Store, name: string, provider: string, secret: string, budgetUsd: Option<real>,
                         passphrase: Option<string>, notes: Option<string>, keyId: string, now: int)
    requires WellFormed(st) && keyId !in st.meta
    requires AddSpec(st, name, provider, secret, budgetUsd, passphrase, notes, keyId, now).result.Ok?
    ensures var o := AddSpec(st, name, provider, secret, budgetUsd, passphrase, notes, keyId, now);
            ListSpec(o.store, passphrase).Ok? && o.result.value in ListSpec(o.store, passphrase).value
  {
    var o := AddSpec(st, name, provider, secret, budgetUsd, passphrase, notes, keyId, now);
    AddWritesRecordSecretAndAudit(st, name, provider, secret, budgetUsd, passphrase, notes, keyId, now);
    ListedExactly(o.store, passphrase);
  }

  /** Where list_keys puts the record filed under `id`. */
  lemma ListedPosition(st: Store, passphrase: Option<string>, id: string) returns (j: nat)
    requires WellFormed(st) && ListSpec(st, passphrase).Ok? && id in st.meta
    ensures j < |ListSpec(st, passphrase).value| && ListSpec(st, passphrase).value[j] == st.meta[id]
  {
    var keys := ListSpec(st, passphrase).value;
    ListedExactly(st, passphrase);
    assert st.meta[id] in keys;
    j :| 0 <= j < |keys| && keys[j] == st.meta[id];
  }

  /** In a list sorted by created_at, the first record with a provider was
      created no later than any other record with it. */
  lemma {:induction false} FirstMatchIsEarliest(keys: seq<Meta>, norm: string, j: nat)
    requires Sorting.SortedBy(keys, CreatedAt)
    requires j < |keys| && keys[j].provider == norm
    ensures FirstIndexWithProvider(keys, norm) <= j
    ensures keys[FirstIndexWithProvider(keys, norm)].createdAt <= keys[j].createdAt
  {
    var i := FirstIndexWithProvider(keys, norm);
    if i < j {
      assert CreatedAt(keys[i]) <= CreatedAt(keys[j]);
    }
  }

  /** A key found by find_key_for_provider has the sanitised provider, is a
      stored record, and was created no later than any other key for it. */
  lemma FindReturnsEarliestMatch(st: Store, provider: string, passphrase: Option<string>)
    requires WellFormed(st) && FindSpec(st, provider, passphrase).Ok? && FindSpec(st, provider, passphrase).value.Some?
    ensures var m := FindSpec(st, provider, passphrase).value.value;
            m.provider == SanitizeProvider(provider) && m.id in st.meta && st.meta[m.id] == m &&
            forall id :: id in st.meta && st.meta[id].provider == m.provider ==> m.createdAt <= st.meta[id].createdAt
  {
    var keys := ListSpec(st, passphrase).value;
    var norm := SanitizeProvider(provider);
    var i := FirstIndexWithProvider(keys, norm);
    assert FindSpec(st, provider, passphrase) == Ok(Some(keys[i]));
    ListedExactly(st, passphrase);
    assert keys[i] in keys;
    forall id | id in st.meta && st.meta[id].provider == norm
      ensures keys[i].createdAt <= st.meta[id].createdAt
    {
      var j := ListedPosition(st, passphrase, id);
      FirstMatchIsEarliest(keys, norm, j);
    }
  }

  /** find_key_for_provider finds nothing exactly when no key has the
      sanitised provider. */
  lemma FindNoneOnlyWithoutMatch(st: Store, provider: string, passphrase: Option<string>)
    requires WellFormed(st) && FindSpec(st, provider, passphrase).Ok?
    ensures FindSpec(st, provider, passphrase).value.None? <==>
              forall id :: id in st.meta ==> st.meta[id].provider != SanitizeProvider(provider)
  {
    var keys := ListSpec(st, passphrase).value;
    var norm := SanitizeProvider(provider);
    var i := FirstIndexWithProvider(keys, norm);
    if i < |keys| {
      ListedExactly(st, passphrase);
      assert keys[i] in keys;
      assert st.meta[keys[i].id].provider == norm;
    } else {
      forall id | id in st.meta
        ensures st.meta[id].provider != norm
      {
        var j := ListedPosition(st, passphrase, id);
      }
    }
  }

  /** delete_key removes the record before anything else can fail, and logs
      only when it completes. */
  lemma DeleteDropsRecordFirst(st: Store, keyId: string, passphrase: Option<string>, now: int)
    requires WellFormed(st) && keyId in st.meta
    ensures var o := DeleteSpec(st, keyId, passphrase, now);
            o.store.meta == st.meta - {keyId} && keyId !in o.store.order &&
            (o.result.Err? ==> o.store.audit == st.audit) &&
            (o.result.Ok? ==>
               o.store.audit == st.audit + [AuditEntry(now, Delete, keyId,
                                              AuditData(st.meta[keyId].name, st.meta[keyId].provider, None))])
  {
    RemoveSecretEffect(Popped(st, keyId), st.meta[keyId].storage, keyId, passphrase);
  }

  /** A completed delete_key leaves no secret under the id in the backend the
      record named (when the keyring library is present). */
  lemma DeleteRemovesSecret(st: Store, keyId: string, passphrase: Option<string>, now: int)
    requires WellFormed(st) && keyId in st.meta
    requires DeleteSpec(st, keyId, passphrase, now).result.Ok?
    ensures var o := DeleteSpec(st, keyId, passphrase, now);
            (st.meta[keyId].storage == Keyring && st.keyringAvailable ==>
               keyId !in o.store.vault && o.store.secretsFile == st.secretsFile) &&
            (st.meta[keyId].storage == File ==>
               o.store.vault == st.vault &&
               GetFileValue(o.store.secretsFile, keyId, ResolvePassphrase(passphrase, st.envPassphrase).value) == Ok(None))
  {
    RemoveSecretEffect(Popped(st, keyId), st.meta[keyId].storage, keyId, passphrase);
  }

  /** After delete_key, whatever became of the secret, the key is unknown. */
  lemma DeleteThenGetNotFound(st: Store, keyId: string, passphrase: Option<string>, now: int, later: Option<string>)
    requires WellFormed(st)
    ensures SecretSpec(DeleteSpec(st, keyId, passphrase, now).store, keyId, later) == Err(NotFound)
  {
    if keyId in st.meta {
      DeleteDropsRecordFirst(st, keyId, passphrase, now);
    }
  }

  /** Deleting a file-stored key without a passphrase removes its record but
      leaves its secret in secrets.enc, where nothing refers to it any more. */
  lemma DeleteWithoutPassphraseOrphansSecret(st: Store, keyId: string, p: string, now: int)
    requires WellFormed(st) && keyId in st.meta && st.meta[keyId].storage == File
    requires !Given(st.envPassphrase)
    requires GetFileValue(st.secretsFile, keyId, p).Ok? && GetFileValue(st.secretsFile, keyId, p).value.Some?
    ensures var o := DeleteSpec(st, keyId, None, now);
            o.result == Err(PassphraseRequired) && keyId !in o.store.meta &&
            GetFileValue(o.store.secretsFile, keyId, p) == GetFileValue(st.secretsFile, keyId, p) &&
            o.store.audit == st.audit
  {
    RemoveSecretEffect(Popped(st, keyId), File, keyId, None);
  }

  /** A secrets file sealed under another passphrase is a decryption error,
      not a missing secret. */
  lemma WrongPassphraseIsDecryptError(st: Store, keyId: string, passphrase: string)
    requires keyId in st.meta && st.meta[keyId].storage == File && passphrase != []
    requires st.secretsFile.Some? && st.secretsFile.value.passphrase != passphrase
    ensures SecretSpec(st, keyId, Some(passphrase)) == Err(DecryptFailed)
    ensures GetKeySpec(st, keyId, Some(passphrase)) == Err(DecryptFailed)
  {
  }

  /** edit_key changes the record under `keyId` only in the supplied fields and
      updated_at, leaves every other record alone, and logs only on success. */
  lemma EditChangesOnlyGivenFields(st: Store, keyId: string, name: Option<string>, provider: Option<string>,
                                   budgetUsd: Option<real>, secret: Option<string>, passphrase: Option<string>, now: int)
    requires WellFormed(st) && keyId in st.meta
    ensures var o := EditSpec(st, keyId, name, provider, budgetUsd, secret, passphrase, now);
            var e := st.meta[keyId];
            var m := o.store.meta[keyId];
            o.store.meta.Keys == st.meta.Keys &&
            (forall id :: id in st.meta && id != keyId ==> o.store.meta[id] == st.meta[id]) &&
            m.id == e.id && m.createdAt == e.createdAt && m.storage == e.storage &&
            m.notes == e.notes && m.lastUsedAt == e.lastUsedAt && m.updatedAt == Some(now) &&
            m.name == (if Given(name) then Strip(name.value) else e.name) &&
            m.provider == (if Given(provider) then SanitizeProvider(provider.value) else e.provider) &&
            m.budgetUsd == (if budgetUsd.Some? then budgetUsd else e.budgetUsd) &&
            (o.result.Err? ==> o.store.audit == st.audit) &&
            (o.result.Ok? ==> o.result.value == m &&
                              o.store.audit == st.audit + [AuditEntry(now, Edit, keyId, AuditData(m.name, m.provider, None))])
  {
    var e := Edited(st.meta[keyId], name, provider, budgetUsd, now);
    var o := EditSpec(st, keyId, name, provider, budgetUsd, secret, passphrase, now);
    assert o.store.meta == st.meta[keyId := e];
    assert o.result.Ok? ==> o.result.value == e;
  }

  /** An edit that supplies no secret cannot fail on an existing key and
      leaves the stored secret as it was. */
  lemma EditWithoutSecretKeepsSecret(st: Store, keyId: string, name: Option<string>, provider: Option<string>,
                                     budgetUsd: Option<real>, passphrase: Option<string>, now: int,
                                     later: Option<string>)
    requires WellFormed(st) && keyId in st.meta
    ensures var o := EditSpec(st, keyId, name, provider, budgetUsd, None, passphrase, now);
            o.result.Ok? && o.store.vault == st.vault && o.store.secretsFile == st.secretsFile &&
            SecretSpec(o.store, keyId, later) == SecretSpec(st, keyId, later)
  {
    var o := EditSpec(st, keyId, name, provider, budgetUsd, None, passphrase, now);
    assert o.store.meta[keyId].storage == st.meta[keyId].storage;
    assert ReadSecret(o.store, st.meta[keyId].storage, keyId, later) == ReadSecret(st, st.meta[keyId].storage, keyId, later);
  }

  /** edit_key accepts an empty secret, which get_secret then reports as missing. */
  lemma EditEmptySecretIsMissing(st: Store, keyId: string, passphrase: Option<string>, now: int)
    requires WellFormed(st) && keyId in st.meta
    requires EditSpec(st, keyId, None, None, None, Some([]), passphrase, now).result.Ok?
    ensures SecretSpec(EditSpec(st, keyId, None, None, None, Some([]), passphrase, now).store, keyId, passphrase)
            == Err(SecretMissing)
  {
    var o := EditSpec(st, keyId, None, None, None, Some([]), passphrase, now);
    var e := Edited(st.meta[keyId], None, None, None, now);
    WriteSecretEffect(Put(st, e), e.storage, keyId, [], passphrase);
    assert o.store.meta[keyId].storage == st.meta[keyId].storage;
    assert ReadSecret(o.store, st.meta[keyId].storage, keyId, passphrase) == Ok(Some([]));
  }

  /** A successful edit that supplies a non-empty secret rotates it: get_secret
      with the same passphrase argument then returns the new secret. */
  lemma EditRotatesSecret(st: Store, keyId: string, name: Option<string>, provider: Option<string>,
                          budgetUsd: Option<real>, secret: string, passphrase: Option<string>, now: int)
    requires WellFormed(st) && keyId in st.meta && secret != []
    requires EditSpec(st, keyId, name, provider, budgetUsd, Some(secret), passphrase, now).result.Ok?
    ensures SecretSpec(EditSpec(st, keyId, name, provider, budgetUsd, Some(secret), passphrase, now).store, keyId, passphrase)
            == Ok(secret)
  {
    var o := EditSpec(st, keyId, name, provider, budgetUsd, Some(secret), passphrase, now);
    var e := Edited(st.meta[keyId], name, provider, budgetUsd, now);
    WriteSecretEffect(Put(st, e), e.storage, keyId, secret, passphrase);
    assert o.store.meta[keyId].storage == st.meta[keyId].storage;
    assert ReadSecret(o.store, st.meta[keyId].storage, keyId, passphrase) == Ok(Some(secret));
  }

  /** touch_key changes no secret: get_secret answers as before for every id. */
  lemma TouchKeepsSecrets(st: Store, keyId: string, now: int, other: string, passphrase: Option<string>)
    requires WellFormed(st)
    ensures SecretSpec(TouchSpec(st, keyId, now), other, passphrase) == SecretSpec(st, other, passphrase)
  {
    var r := TouchSpec(st, keyId, now);
    if other in st.meta {
      assert r.meta[other].storage == st.meta[other].storage;
      assert ReadSecret(r, st.meta[other].storage, other, passphrase) == ReadSecret(st, st.meta[other].storage, other, passphrase);
    }
  }

  // ---------------------------------------------------------------------------
  // The store as an object whose files the operations rewrite step by step
  // ---------------------------------------------------------------------------

  class Locker {
    var meta: map<string, Meta>
    var order: seq<string>
    var vault: map<string, string>
    var secretsFile: Option<Sealed>
    var audit: seq<AuditEntry>
    const keyringAvailable: bool
    const envPassphrase: Option<string>

    function Snapshot(): Store
      reads this
    {
      Store(meta, order, vault, secretsFile, keyringAvailable, envPassphrase, audit)
    }

    ghost predicate Valid()
      reads this
    {
      WellFormed(Snapshot())
    }

    /** A fresh storage directory: empty metadata, no secrets file, empty audit log. */
    constructor (keyringAvailable: bool, envPassphrase: Option<string>)
      ensures Valid()
      ensures Snapshot() == Store(map[], [], map[], None, keyringAvailable, envPassphrase, [])
    {
      meta := map[];
      order := [];
      vault := map[];
      secretsFile := None;
      audit := [];
      this.keyringAvailable := keyringAvailable;
      this.envPassphrase := envPassphrase;
    }

    /** `_audit`: appends one line. */
    method WriteAudit(entry: AuditEntry)
      modifies this`audit
      ensures audit == old(audit) + [entry]
    {
      audit := audit + [entry];
    }

    /** `_set_secret_file_value`: load, update, seal again. */
    method SetSecretFileValue(keyId: string, secret: string, passphrase: string) returns (r: Result<(), LockerError>)
      modifies this`secretsFile
      ensures r.Ok? <==> SetFileValue(old(secretsFile), keyId, secret, passphrase).Ok?
      ensures r.Ok? ==> secretsFile == Some(SetFileValue(old(secretsFile), keyId, secret, passphrase).value)
      ensures r.Err? ==> secretsFile == old(secretsFile) && r.error == DecryptFailed
    {
      var loaded := LoadSecretMap(secretsFile, passphrase);
      if loaded.Err? {
        return Err(loaded.error);
      }
      var data := loaded.value;
      data := data[keyId := secret];
      secretsFile := Some(Sealed(passphrase, data));
      r := Ok(());
    }

    /** `_delete_secret_file_value`: rewrites the file only when it held the id. */
    method DeleteSecretFileValue(keyId: string, passphrase: string) returns (r: Result<(), LockerError>)
      modifies this`secretsFile
      ensures r.Ok? <==> DeleteFileValue(old(secretsFile), keyId, passphrase).Ok?
      ensures r.Ok? ==> secretsFile == DeleteFileValue(old(secretsFile), keyId, passphrase).value
      ensures r.Err? ==> secretsFile == old(secretsFile) && r.error == DecryptFailed
    {
      var loaded := LoadSecretMap(secretsFile, passphrase);
      if loaded.Err? {
        return Err(loaded.error);
      }
      var data := loaded.value;
      if keyId in data {
        data := data - {keyId};
        secretsFile := Some(Sealed(passphrase, data));
      }
      r := Ok(());
    }

    /** The secret-writing step of add_key and edit_key. */
    method StoreSecret(storage: Storage, keyId: string, secret: string, passphrase: Option<string>)
      returns (r: Result<(), LockerError>)
      modifies this`vault, this`secretsFile
      ensures var w := WriteSecret(old(Snapshot()), storage, keyId, secret, passphrase);
              (r.Ok? <==> w.Ok?) &&
              (w.Ok? ==> Snapshot() == w.value) &&
              (w.Err? ==> Snapshot() == old(Snapshot()) && r.error == w.error)
    {
      if storage == Keyring {
        if !keyringAvailable {
          return Err(KeyringUnavailable);
        }
        vault := vault[keyId := secret];
      } else {
        var resolved := ResolvePassphrase(passphrase, envPassphrase);
        if resolved.Err? {
          return Err(resolved.error);
        }
        r := SetSecretFileValue(keyId, secret, resolved.value);
        if r.Err? {
          return;
        }
      }
      r := Ok(());
    }

    method AddKey(name: string, provider: string, secret: string, budgetUsd: Option<real>,
                  passphrase: Option<string>, notes: Option<string>, freshId: string, now: int)
      returns (r: Result<Meta, LockerError>)
      requires Valid() && freshId !in meta
      modifies this
      ensures Valid()
      ensures Snapshot() == AddSpec(old(Snapshot()), name, provider, secret, budgetUsd, passphrase, notes, freshId, now).store
      ensures r == AddSpec(old(Snapshot()), name, provider, secret, budgetUsd, passphrase, notes, freshId, now).result
    {
      var missing := Validate(name, provider, secret);
      if missing.Some? {
        return Err(Invalid(missing.value));
      }
      var storage := PickStorage(keyringAvailable);
      var m := NewRecord(freshId, name, provider, now, storage, budgetUsd, notes);
      var written := StoreSecret(storage, freshId, secret, passphrase);
      if written.Err? {
        return Err(written.error);
      }
      meta := meta[freshId := m];
      order := order + [freshId];
      WriteAudit(AuditEntry(now, Add, freshId, AuditData(m.name, m.provider, Some(storage))));
      r := Ok(m);
      assert Snapshot() == AddSpec(old(Snapshot()), name, provider, secret, budgetUsd, passphrase, notes, freshId, now).store;
    }

    method ListKeys(passphrase: Option<string>) returns (r: Result<seq<Meta>, LockerError>)
      requires Valid()
      ensures r == ListSpec(Snapshot(), passphrase)
    {
      if !keyringAvailable && ResolvePassphrase(passphrase, envPassphrase).Err? {
        return Err(PassphraseRequired);
      }
      var keys: seq<Meta> := [];
      var i := 0;
      while i < |order|
        invariant 0 <= i <= |order|
        invariant keys == Records(order, meta)[..i]
      {
        keys := keys + [meta[order[i]]];
        i := i + 1;
      }
      assert keys == Records(order, meta);
      keys := Sorting.SortBy(keys, CreatedAt);
      r := Ok(keys);
    }

    method GetSecret(keyId: string, passphrase: Option<string>) returns (r: Result<string, LockerError>)
      ensures r == SecretSpec(Snapshot(), keyId, passphrase)
    {
      if keyId !in meta {
        return Err(NotFound);
      }
      var secret: Option<string>;
      if meta[keyId].storage == Keyring {
        if !keyringAvailable {
          return Err(KeyringUnavailable);
        }
        secret := VaultGet(vault, keyId);
      } else {
        var resolved := ResolvePassphrase(passphrase, envPassphrase);
        if resolved.Err? {
          return Err(resolved.error);
        }
        var fetched := GetFileValue(secretsFile, keyId, resolved.value);
        if fetched.Err? {
          return Err(fetched.error);
        }
        secret := fetched.value;
      }
      if secret.None? || secret.value == [] {
        return Err(SecretMissing);
      }
      r := Ok(secret.value);
    }

    method GetKey(keyId: string, passphrase: Option<string>) returns (r: Result<KeyView, LockerError>)
      ensures r == GetKeySpec(Snapshot(), keyId, passphrase)
    {
      if keyId !in meta {
        return Err(NotFound);
      }
      var secret := GetSecret(keyId, passphrase);
      if secret.Err? {
        return Err(secret.error);
      }
      r := Ok(KeyView(meta[keyId], secret.value != []));
    }

    method DeleteKey(keyId: string, passphrase: Option<string>, now: int) returns (r: Result<(), LockerError>)
      requires Valid()
      modifies this
      ensures Valid()
      ensures Snapshot() == DeleteSpec(old(Snapshot()), keyId, passphrase, now).store
      ensures r == DeleteSpec(old(Snapshot()), keyId, passphrase, now).result
    {
      if keyId !in meta {
        return Err(NotFound);
      }
      var entry := meta[keyId];
      meta := meta - {keyId};
      order := RemoveId(order, keyId);
      if entry.storage == Keyring {
        if keyringAvailable {
          if keyId !in vault {
            return Err(VaultEntryMissing);
          }
          vault := vault - {keyId};
        }
      } else {
        var resolved := ResolvePassphrase(passphrase, envPassphrase);
        if resolved.Err? {
          return Err(resolved.error);
        }
        var removed := DeleteSecretFileValue(keyId, resolved.value);
        if removed.Err? {
          return Err(removed.error);
        }
      }
      WriteAudit(AuditEntry(now, Delete, keyId, AuditData(entry.name, entry.provider, None)));
      r := Ok(());
      assert Snapshot() == DeleteSpec(old(Snapshot()), keyId, passphrase, now).store;
    }

    method EditKey(keyId: string, name: Option<string>, provider: Option<string>, budgetUsd: Option<real>,
                   secret: Option<string>, passphrase: Option<string>, now: int)
      returns (r: Result<Meta, LockerError>)
      requires Valid()
      modifies this
      ensures Valid()
      ensures Snapshot() == EditSpec(old(Snapshot()), keyId, name, provider, budgetUsd, secret, passphrase, now).store
      ensures r == EditSpec(old(Snapshot()), keyId, name, provider, budgetUsd, secret, passphrase, now).result
    {
      if keyId !in meta {
        return Err(NotFound);
      }
      var entry := Edited(meta[keyId], name, provider, budgetUsd, now);
      meta := meta[keyId := entry];
      assert Snapshot() == Put(old(Snapshot()), entry);
      if secret.Some? {
        var written := StoreSecret(entry.storage, keyId, secret.value, passphrase);
        if written.Err? {
          return Err(written.error);
        }
      }
      WriteAudit(AuditEntry(now, Edit, keyId, AuditData(entry.name, entry.provider, None)));
      r := Ok(entry);
      assert Snapshot() == EditSpec(old(Snapshot()), keyId, name, provider, budgetUsd, secret, passphrase, now).store;
    }

    method FindKeyForProvider(provider: string, passphrase: Option<string>) returns (r: Result<Option<Meta>, LockerError>)
      requires Valid()
      ensures r == FindSpec(Snapshot(), provider, passphrase)
    {
      var normalized := SanitizeProvider(provider);
      var listed := ListKeys(passphrase);
      if listed.Err? {
        return Err(listed.error);
      }
      var keys := listed.value;
      var i := 0;
      while i < |keys|
        invariant 0 <= i <= |keys|
        invariant forall j :: 0 <= j < i ==> keys[j].provider != normalized
      {
        if keys[i].provider == normalized {
          assert i == FirstIndexWithProvider(keys, normalized);
          return Ok(Some(keys[i]));
        }
        i := i + 1;
      }
      r := Ok(None);
    }

    method TouchKey(keyId: string, now: int)
      requires Valid()
      modifies this`meta
      ensures Valid()
      ensures Snapshot() == TouchSpec(old(Snapshot()), keyId, now)
    {
      if keyId !in meta {
        return;
      }
      var entry := meta[keyId];
      entry := entry.(lastUsedAt := Some(now));
      meta := meta[keyId := entry];
    }
  }
}
