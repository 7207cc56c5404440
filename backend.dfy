/**
 * The Rust side of the vault (`src-tauri/src/lib.rs`): a `PasswordVault`
 * record held in memory and in one file, and the commands the front end
 * invokes. Every mutating command works on a copy of the vault, saves the copy
 * to the file and only then installs it in memory; any earlier error leaves
 * both as they were. bcrypt, the SHA-256 key derivation with AES-256, UTF-8
 * conversion, the random salt and IV, the clock, the fresh ids and the outcome
 * of writing the file are inputs.
 */
module Backend {
  import opened Wrappers
  import opened Hex
  import opened Cipher
  import opened Entities
  import opened Seqs

  /** A stored entry: its `password` is the hex text `encrypt_data` produced. */
  datatype EncryptedPasswordItem = EncryptedPasswordItem(
    id: string,
    title: string,
    username: string,
    password: string,
    url: string,
    notes: string,
    category: string,
    createdAt: nat,
    updatedAt: nat)

  /** The payload of `add_password`: an entry without id and timestamps. */
  datatype CreatePasswordItem = CreatePasswordItem(
    title: string,
    username: string,
    password: string,
    url: string,
    notes: string,
    category: string)

  datatype PasswordVault = PasswordVault(
    masterPasswordHash: string,
    salt: string,
    passwords: seq<EncryptedPasswordItem>,
    categories: seq<Category>)

  /** The vault file: absent, present but not readable as a vault, or holding one. */
  datatype VaultFile = Missing | Unreadable(reason: string) | Stored(vault: PasswordVault)

  /**
   * The foreign routines: `bcrypt::verify(password, hash)`, the AES-256 cipher
   * under `derive_key(password, salt)`, and UTF-8 conversion.
   */
  datatype Crypto = Crypto(
    verify: (string, string) -> Result<bool, string>,
    cipherFor: (string, seq<byte>) -> BlockCipher,
    utf8: Utf8)

  /** The command errors; the comment gives the text the source reports. */
  datatype BackendError =
    | VaultExists                        // 密码库已存在
    | HashFailed(detail: string)         // 密码哈希失败: …
    | VaultMissing                       // 密码库不存在
    | VaultUnreadable(detail: string)    // 读取密码库失败: … / 解析密码库失败: …
    | VerifyFailed(detail: string)       // 密码验证失败: …
    | WrongMasterPassword                // 主密码错误
    | SaltDecodeFailed(hexError: HexError)     // 解码盐失败: …
    | DecryptFailed(cause: DecryptError)    // 解密密码失败: …
    | SaveFailed(detail: string)         // 创建目录失败: … / 写入密码库失败: …
    | PasswordNotFound                   // 密码不存在
    | CategoryNotFound                   // 分类不存在

  const DefaultCategories: seq<Category> := [
    Category("1", "所有", "📁"),
    Category("2", "个人", "👤"),
    Category("3", "工作", "💼"),
    Category("4", "金融", "💰"),
    Category("5", "社交媒体", "📱")
  ]

  function PasswordIdIs(id: string): EncryptedPasswordItem -> bool {
    (e: EncryptedPasswordItem) => e.id == id
  }

  /** The entry `get_passwords` reports for a stored one: every field copied, the password replaced. */
  function WithPassword(e: EncryptedPasswordItem, password: string): PasswordItem {
    PasswordItem(e.id, e.title, e.username, password, e.url, e.notes, e.category, e.createdAt, e.updatedAt)
  }

  /** The `for` loop of `get_passwords`: decrypt each entry in order, the first failure failing the whole. */
  function DecryptAll(c: BlockCipher, u: Utf8, items: seq<EncryptedPasswordItem>): (r: Result<seq<PasswordItem>, DecryptError>)
    ensures r.Ok? ==> |r.value| == |items|
    ensures r.Err? ==> exists i :: 0 <= i < |items| && Decrypted(c, u, items[i].password) == Err(r.error)
                                 && forall j :: 0 <= j < i ==> Decrypted(c, u, items[j].password).Ok?
    decreases |items|
  {
    if items == [] then Ok([])
    else match Decrypted(c, u, items[0].password)
      case Err(e) => Err(e)
      case Ok(plain) =>
        match DecryptAll(c, u, items[1..])
        case Err(e) => Err(e)
        case Ok(rest) => Ok([WithPassword(items[0], plain)] + rest)
  }

  lemma {:induction false} DecryptAllAppend(c: BlockCipher, u: Utf8, a: seq<EncryptedPasswordItem>, b: seq<EncryptedPasswordItem>)
    ensures DecryptAll(c, u, a + b) ==
      match DecryptAll(c, u, a)
      case Err(e) => Err(e)
      case Ok(xs) => match DecryptAll(c, u, b) { case Err(e) => Err(e) case Ok(ys) => Ok(xs + ys) }
    decreases |a|
  {
    if a == [] {
      assert a + b == b;
      match DecryptAll(c, u, b) {
        case Err(_) =>
        case Ok(ys) => assert [] + ys == ys;
      }
    } else {
      assert (a + b)[0] == a[0] && (a + b)[1..] == a[1..] + b;
      DecryptAllAppend(c, u, a[1..], b);
      match DecryptAll(c, u, a[1..]) {
        case Err(_) =>
        case Ok(xs) =>
          match DecryptAll(c, u, b) {
            case Err(_) =>
            case Ok(ys) =>
              match Decrypted(c, u, a[0].password) {
                case Err(_) =>
                case Ok(plain) => assert [WithPassword(a[0], plain)] + (xs + ys) == ([WithPassword(a[0], plain)] + xs) + ys;
              }
          }
      }
    }
  }

  lemma DecryptAllSingle(c: BlockCipher, u: Utf8, x: EncryptedPasswordItem)
    ensures DecryptAll(c, u, [x]) ==
      match Decrypted(c, u, x.password) { case Err(e) => Err(e) case Ok(p) => Ok([WithPassword(x, p)]) }
  {
    assert [x][1..] == [];
    assert DecryptAll(c, u, []) == Ok([]);
    match Decrypted(c, u, x.password) {
      case Err(_) =>
      case Ok(p) => assert [WithPassword(x, p)] + [] == [WithPassword(x, p)];
    }
  }

  /** One more entry of the `get_passwords` loop: it either fails the whole or extends the prefix's result. */
  lemma DecryptAllStep(c: BlockCipher, u: Utf8, items: seq<EncryptedPasswordItem>, i: nat, done: seq<PasswordItem>)
    requires i < |items| && DecryptAll(c, u, items[..i]) == Ok(done)
    ensures Decrypted(c, u, items[i].password).Err? ==>
      DecryptAll(c, u, items) == Err(Decrypted(c, u, items[i].password).error)
    ensures Decrypted(c, u, items[i].password).Ok? ==>
      DecryptAll(c, u, items[..i + 1]) == Ok(done + [WithPassword(items[i], Decrypted(c, u, items[i].password).value)])
  {
    var prefix, next, suffix := items[..i], items[..i + 1], items[i + 1..];
    assert prefix + [items[i]] == next;
    assert next + suffix == items;
    DecryptAllSingle(c, u, items[i]);
    DecryptAllAppend(c, u, prefix, [items[i]]);
    DecryptAllAppend(c, u, next, suffix);
  }

  /**
   * Decryption succeeds exactly when every entry decrypts, and then reports the
   * entries in the stored order with every field but the password unchanged.
   */
  lemma {:induction false} DecryptAllSucceeds(c: BlockCipher, u: Utf8, items: seq<EncryptedPasswordItem>)
    ensures DecryptAll(c, u, items).Ok? <==> forall i :: 0 <= i < |items| ==> Decrypted(c, u, items[i].password).Ok?
    ensures DecryptAll(c, u, items).Ok? ==>
      var r := DecryptAll(c, u, items).value;
      |r| == |items| &&
      forall i :: 0 <= i < |items| ==> r[i] == WithPassword(items[i], Decrypted(c, u, items[i].password).value)
    decreases |items|
  {
    if items != [] {
      DecryptAllSucceeds(c, u, items[1..]);
      assert forall i :: 1 <= i < |items| ==> items[i] == items[1..][i - 1];
    }
  }

  /** The common prologue of the password commands: bcrypt check, salt decoding, key derivation. */
  function Unlock(v: PasswordVault, masterPassword: string, crypto: Crypto): (r: Result<BlockCipher, BackendError>)
    ensures crypto.verify(masterPassword, v.masterPasswordHash) == Ok(false) ==> r == Err(WrongMasterPassword)
    ensures crypto.verify(masterPassword, v.masterPasswordHash).Err? ==>
      r == Err(VerifyFailed(crypto.verify(masterPassword, v.masterPasswordHash).error))
    ensures crypto.verify(masterPassword, v.masterPasswordHash) == Ok(true) && Hex.Decode(v.salt).Err? ==>
      r == Err(SaltDecodeFailed(Hex.Decode(v.salt).error))
    ensures r.Ok? <==> crypto.verify(masterPassword, v.masterPasswordHash) == Ok(true) && Hex.Decode(v.salt).Ok?
    ensures r.Ok? ==> r.value == crypto.cipherFor(masterPassword, Hex.Decode(v.salt).value)
  {
    match crypto.verify(masterPassword, v.masterPasswordHash)
    case Err(e) => Err(VerifyFailed(e))
    case Ok(false) => Err(WrongMasterPassword)
    case Ok(true) =>
      match Hex.Decode(v.salt)
      case Err(e) => Err(SaltDecodeFailed(e))
      case Ok(salt) => Ok(crypto.cipherFor(masterPassword, salt))
  }

  /** What `get_passwords` answers for a vault. */
  function PasswordsOf(v: PasswordVault, masterPassword: string, crypto: Crypto): (r: Result<seq<PasswordItem>, BackendError>)
    ensures crypto.verify(masterPassword, v.masterPasswordHash) == Ok(false) ==> r == Err(WrongMasterPassword)
    ensures Unlock(v, masterPassword, crypto).Err? ==> r == Err(Unlock(v, masterPassword, crypto).error)
    ensures Unlock(v, masterPassword, crypto).Ok? ==>
      (r.Ok? <==> forall i :: 0 <= i < |v.passwords| ==>
                    Decrypted(Unlock(v, masterPassword, crypto).value, crypto.utf8, v.passwords[i].password).Ok?)
    ensures Unlock(v, masterPassword, crypto).Ok? && DecryptAll(Unlock(v, masterPassword, crypto).value, crypto.utf8, v.passwords).Err? ==>
      r == Err(DecryptFailed(DecryptAll(Unlock(v, masterPassword, crypto).value, crypto.utf8, v.passwords).error))
    ensures r.Ok? ==> |r.value| == |v.passwords|
    ensures r.Ok? ==> forall i :: 0 <= i < |v.passwords| ==>
      r.value[i] == WithPassword(v.passwords[i], r.value[i].password)
      && Decrypted(Unlock(v, masterPassword, crypto).value, crypto.utf8, v.passwords[i].password) == Ok(r.value[i].password)
  {
    match Unlock(v, masterPassword, crypto)
    case Err(e) => Err(e)
    case Ok(c) =>
      DecryptAllSucceeds(c, crypto.utf8, v.passwords);
      match DecryptAll(c, crypto.utf8, v.passwords)
      case Err(e) => Err(DecryptFailed(e))
      case Ok(items) => Ok(items)
  }

  /** The vault `initialize_vault` writes: no passwords, the five default categories. */
  function InitializePlan(file: VaultFile, hashed: Result<string, string>, salt: seq<byte>): (r: Result<(PasswordVault, bool), BackendError>)
    ensures !file.Missing? <==> r == Err(VaultExists)
    ensures r.Ok? <==> file.Missing? && hashed.Ok?
    ensures file.Missing? && hashed.Err? ==> r == Err(HashFailed(hashed.error))
    ensures r.Ok? ==> r.value.0.masterPasswordHash == hashed.value && r.value.0.salt == Hex.Encode(salt)
    ensures r.Ok? ==> r.value.0.passwords == [] && r.value.1
    ensures r.Ok? ==>
      var cats := r.value.0.categories;
      |cats| == 5 && cats[0].name == "所有" &&
      forall i :: 0 <= i < 5 ==> cats[i].id == [('1' as int + i) as char]
  {
    if !file.Missing? then Err(VaultExists)
    else match hashed
      case Err(e) => Err(HashFailed(e))
      case Ok(hash) => Ok((PasswordVault(hash, Hex.Encode(salt), [], DefaultCategories), true))
  }

  /** The entry `add_password` stores: the given fields, a fresh id, `created_at == updated_at == now`. */
  function NewEntry(item: CreatePasswordItem, encrypted: string, id: string, now: nat): EncryptedPasswordItem {
    EncryptedPasswordItem(id, item.title, item.username, encrypted, item.url, item.notes, item.category, now, now)
  }

  /** The entry `add_password` answers with. */
  function NewPassword(item: CreatePasswordItem, id: string, now: nat): PasswordItem {
    PasswordItem(id, item.title, item.username, item.password, item.url, item.notes, item.category, now, now)
  }

  /** `add_password` before saving: the new entry appended at the end. */
  function AddPasswordPlan(got: Result<PasswordVault, BackendError>, item: CreatePasswordItem, masterPassword: string,
                           crypto: Crypto, iv: Block, id: string, now: nat): (r: Result<(PasswordVault, PasswordItem), BackendError>)
    ensures got.Err? ==> r == Err(got.error)
    ensures got.Ok? && Unlock(got.value, masterPassword, crypto).Err? ==> r == Err(Unlock(got.value, masterPassword, crypto).error)
    ensures r.Ok? <==> got.Ok? && Unlock(got.value, masterPassword, crypto).Ok?
    ensures r.Ok? ==>
      var (v, v') := (got.value, r.value.0);
      && |v'.passwords| == |v.passwords| + 1
      && v'.passwords[..|v.passwords|] == v.passwords
      && v'.categories == v.categories
      && v'.passwords[|v.passwords|].id == id
      && v'.passwords[|v.passwords|].createdAt == now == v'.passwords[|v.passwords|].updatedAt
      && v'.passwords[|v.passwords|]
           == NewEntry(item, EncryptedText(Unlock(v, masterPassword, crypto).value, crypto.utf8, iv, item.password), id, now)
      && v'.masterPasswordHash == v.masterPasswordHash && v'.salt == v.salt
      && r.value.1 == NewPassword(item, id, now)
  {
    match got
    case Err(e) => Err(e)
    case Ok(v) =>
      match Unlock(v, masterPassword, crypto)
      case Err(e) => Err(e)
      case Ok(c) =>
        var entry := NewEntry(item, EncryptedText(c, crypto.utf8, iv, item.password), id, now);
        Ok((v.(passwords := v.passwords + [entry]), NewPassword(item, id, now)))
  }

  /** `update_password` before saving: the first entry with the id replaced, keeping its `created_at`. */
  function UpdatePasswordPlan(got: Result<PasswordVault, BackendError>, item: PasswordItem, masterPassword: string,
                              crypto: Crypto, iv: Block, now: nat): (r: Result<(PasswordVault, PasswordItem), BackendError>)
    ensures got.Err? ==> r == Err(got.error)
    ensures got.Ok? && Unlock(got.value, masterPassword, crypto).Err? ==> r == Err(Unlock(got.value, masterPassword, crypto).error)
    ensures got.Ok? && Unlock(got.value, masterPassword, crypto).Ok? ==>
      (r == Err(PasswordNotFound) <==> forall j :: 0 <= j < |got.value.passwords| ==> got.value.passwords[j].id != item.id)
    ensures got.Ok? && Unlock(got.value, masterPassword, crypto).Ok? ==>
      (r.Ok? <==> exists j :: 0 <= j < |got.value.passwords| && got.value.passwords[j].id == item.id)
    ensures r.Ok? ==> got.Ok? && Unlock(got.value, masterPassword, crypto).Ok? && Position(got.value.passwords, PasswordIdIs(item.id)).Some?
    ensures r.Ok? ==>
      var (v, v') := (got.value, r.value.0);
      var i := Position(v.passwords, PasswordIdIs(item.id)).value;
      && i < |v.passwords| == |v'.passwords|
      && (forall j :: 0 <= j < i ==> v.passwords[j].id != item.id)
      && (forall j :: 0 <= j < |v.passwords| && j != i ==> v'.passwords[j] == v.passwords[j])
      && v'.passwords[i] == EncryptedPasswordItem(item.id, item.title, item.username,
           EncryptedText(Unlock(v, masterPassword, crypto).value, crypto.utf8, iv, item.password),
           item.url, item.notes, item.category, v.passwords[i].createdAt, now)
      && v'.categories == v.categories
      && v'.masterPasswordHash == v.masterPasswordHash && v'.salt == v.salt
      && r.value.1 == item.(createdAt := v.passwords[i].createdAt, updatedAt := now)
  {
    match got
    case Err(e) => Err(e)
    case Ok(v) =>
      match Unlock(v, masterPassword, crypto)
      case Err(e) => Err(e)
      case Ok(c) =>
        var encrypted := EncryptedText(c, crypto.utf8, iv, item.password);
        match Position(v.passwords, PasswordIdIs(item.id))
        case None => Err(PasswordNotFound)
        case Some(i) =>
          var createdAt := v.passwords[i].createdAt;
          var entry := EncryptedPasswordItem(item.id, item.title, item.username, encrypted, item.url, item.notes,
                                             item.category, createdAt, now);
          Ok((v.(passwords := v.passwords[i := entry]), item.(createdAt := createdAt, updatedAt := now)))
  }

  /** `delete_password` before saving: the first entry with the id removed. No master password is asked. */
  function DeletePasswordPlan(got: Result<PasswordVault, BackendError>, id: string): (r: Result<(PasswordVault, bool), BackendError>)
    ensures got.Err? ==> r == Err(got.error)
    ensures got.Ok? ==>
      (r == Err(PasswordNotFound) <==> forall j :: 0 <= j < |got.value.passwords| ==> got.value.passwords[j].id != id)
    ensures got.Ok? ==> (r.Ok? <==> exists j :: 0 <= j < |got.value.passwords| && got.value.passwords[j].id == id)
    ensures r.Ok? ==> got.Ok? && Position(got.value.passwords, PasswordIdIs(id)).Some?
    ensures r.Ok? ==>
      var (v, v') := (got.value, r.value.0);
      var i := Position(v.passwords, PasswordIdIs(id)).value;
      && i < |v.passwords| && v.passwords[i].id == id
      && (forall j :: 0 <= j < i ==> v.passwords[j].id != id)
      && v'.passwords == v.passwords[..i] + v.passwords[i + 1..]
      && r.value.1
      && v'.categories == v.categories
      && v'.masterPasswordHash == v.masterPasswordHash && v'.salt == v.salt
  {
    match got
    case Err(e) => Err(e)
    case Ok(v) =>
      match Position(v.passwords, PasswordIdIs(id))
      case None => Err(PasswordNotFound)
      case Some(i) => Ok((v.(passwords := RemoveAt(v.passwords, i)), true))
  }

  /** `add_category` before saving: the category appended with a fresh id replacing the one supplied. */
  function AddCategoryPlan(got: Result<PasswordVault, BackendError>, category: Category, id: string): (r: Result<(PasswordVault, Category), BackendError>)
    ensures got.Ok? <==> r.Ok?
    ensures got.Err? ==> r == Err(got.error)
    ensures got.Ok? ==>
      var (v, v') := (got.value, r.value.0);
      && v'.categories == v.categories + [r.value.1]
      && r.value.1 == category.(id := id)
      && v'.passwords == v.passwords
      && v'.masterPasswordHash == v.masterPasswordHash && v'.salt == v.salt
  {
    match got
    case Err(e) => Err(e)
    case Ok(v) =>
      var added := Category(id, category.name, category.icon);
      Ok((v.(categories := v.categories + [added]), added))
  }

  /** `update_category` before saving: the first category with the id replaced by the one given. */
  function UpdateCategoryPlan(got: Result<PasswordVault, BackendError>, category: Category): (r: Result<(PasswordVault, Category), BackendError>)
    ensures got.Err? ==> r == Err(got.error)
    ensures got.Ok? ==>
      (r == Err(CategoryNotFound) <==> forall j :: 0 <= j < |got.value.categories| ==> got.value.categories[j].id != category.id)
    ensures got.Ok? ==>
      (r.Ok? <==> exists j :: 0 <= j < |got.value.categories| && got.value.categories[j].id == category.id)
    ensures r.Ok? ==> got.Ok? && Position(got.value.categories, CategoryIdIs(category.id)).Some?
    ensures r.Ok? ==>
      var (v, v') := (got.value, r.value.0);
      var i := Position(v.categories, CategoryIdIs(category.id)).value;
      && i < |v.categories| == |v'.categories|
      && (forall j :: 0 <= j < i ==> v.categories[j].id != category.id)
      && v'.categories == v.categories[i := category]
      && v'.passwords == v.passwords
      && v'.masterPasswordHash == v.masterPasswordHash && v'.salt == v.salt
      && r.value.1 == category
  {
    match got
    case Err(e) => Err(e)
    case Ok(v) =>
      match Position(v.categories, CategoryIdIs(category.id))
      case None => Err(CategoryNotFound)
      case Some(i) => Ok((v.(categories := v.categories[i := category]), category))
  }

  /** `delete_category` before saving: the first category with the id removed. */
  function DeleteCategoryPlan(got: Result<PasswordVault, BackendError>, id: string): (r: Result<(PasswordVault, bool), BackendError>)
    ensures got.Err? ==> r == Err(got.error)
    ensures got.Ok? ==>
      (r == Err(CategoryNotFound) <==> forall j :: 0 <= j < |got.value.categories| ==> got.value.categories[j].id != id)
    ensures got.Ok? ==> (r.Ok? <==> exists j :: 0 <= j < |got.value.categories| && got.value.categories[j].id == id)
    ensures r.Ok? ==> got.Ok? && Position(got.value.categories, CategoryIdIs(id)).Some?
    ensures r.Ok? ==>
      var (v, v') := (got.value, r.value.0);
      var i := Position(v.categories, CategoryIdIs(id)).value;
      && i < |v.categories| && v.categories[i].id == id
      && (forall j :: 0 <= j < i ==> v.categories[j].id != id)
      && v'.categories == v.categories[..i] + v.categories[i + 1..]
      && r.value.1
      && v'.passwords == v.passwords
      && v'.masterPasswordHash == v.masterPasswordHash && v'.salt == v.salt
  {
    match got
    case Err(e) => Err(e)
    case Ok(v) =>
      match Position(v.categories, CategoryIdIs(id))
      case None => Err(CategoryNotFound)
      case Some(i) => Ok((v.(categories := RemoveAt(v.categories, i)), true))
  }

  /** The reply of a mutating command: the planned answer if saving succeeds. */
  function Reply<T>(plan: Result<(PasswordVault, T), BackendError>, saveError: Option<string>): (r: Result<T, BackendError>)
    ensures r.Ok? <==> plan.Ok? && saveError.None?
    ensures plan.Err? ==> r == Err(plan.error)
    ensures plan.Ok? && saveError.Some? ==> r == Err(SaveFailed(saveError.value))
    ensures r.Ok? ==> r.value == plan.value.1
  {
    match plan
    case Err(e) => Err(e)
    case Ok((_, answer)) => if saveError.Some? then Err(SaveFailed(saveError.value)) else Ok(answer)
  }

  /** A password added and then read back with the same master password comes back in clear, at the end. */
  lemma AddedPasswordReadsBack(v: PasswordVault, item: CreatePasswordItem, masterPassword: string, crypto: Crypto,
                               iv: Block, id: string, now: nat)
    requires Unlock(v, masterPassword, crypto).Ok?
    requires Inverts(Unlock(v, masterPassword, crypto).value) && RoundTrips(crypto.utf8)
    requires PasswordsOf(v, masterPassword, crypto).Ok?
    ensures var plan := AddPasswordPlan(Ok(v), item, masterPassword, crypto, iv, id, now);
            plan.Ok? &&
            PasswordsOf(plan.value.0, masterPassword, crypto)
              == Ok(PasswordsOf(v, masterPassword, crypto).value + [NewPassword(item, id, now)])
  {
    var c := Unlock(v, masterPassword, crypto).value;
    var entry := NewEntry(item, EncryptedText(c, crypto.utf8, iv, item.password), id, now);
    DecryptedEncrypted(c, crypto.utf8, iv, item.password);
    DecryptAllAppend(c, crypto.utf8, v.passwords, [entry]);
    assert DecryptAll(c, crypto.utf8, [entry]) == Ok([NewPassword(item, id, now)]) by {
      DecryptAllSingle(c, crypto.utf8, entry);
      assert Decrypted(c, crypto.utf8, entry.password) == Ok(item.password);
      assert WithPassword(entry, item.password) == NewPassword(item, id, now);
    }
  }

  /** Replacing one stored entry by one that decrypts replaces only that entry of the decrypted list. */
  lemma DecryptAllReplace(c: BlockCipher, u: Utf8, items: seq<EncryptedPasswordItem>, i: nat, entry: EncryptedPasswordItem)
    requires i < |items| && DecryptAll(c, u, items).Ok? && Decrypted(c, u, entry.password).Ok?
    ensures DecryptAll(c, u, items).Ok? && |DecryptAll(c, u, items).value| == |items|
    ensures DecryptAll(c, u, items[i := entry])
      == Ok(DecryptAll(c, u, items).value[i := WithPassword(entry, Decrypted(c, u, entry.password).value)])
  {
    var replaced := items[i := entry];
    DecryptAllSucceeds(c, u, items);
    DecryptAllSucceeds(c, u, replaced);
    var xs, ys := DecryptAll(c, u, items).value, DecryptAll(c, u, replaced).value;
    assert ys == xs[i := WithPassword(entry, Decrypted(c, u, entry.password).value)];
  }

  /** A password updated and then read back comes back in clear at its old position; the other entries are unchanged. */
  lemma UpdatedPasswordReadsBack(v: PasswordVault, item: PasswordItem, masterPassword: string, crypto: Crypto,
                                 iv: Block, now: nat)
    requires Unlock(v, masterPassword, crypto).Ok?
    requires Inverts(Unlock(v, masterPassword, crypto).value) && RoundTrips(crypto.utf8)
    requires PasswordsOf(v, masterPassword, crypto).Ok?
    requires exists j :: 0 <= j < |v.passwords| && v.passwords[j].id == item.id
    ensures var plan := UpdatePasswordPlan(Ok(v), item, masterPassword, crypto, iv, now);
            plan.Ok? &&
            PasswordsOf(plan.value.0, masterPassword, crypto)
              == Ok(PasswordsOf(v, masterPassword, crypto).value[Position(v.passwords, PasswordIdIs(item.id)).value := plan.value.1])
  {
    var c, u := Unlock(v, masterPassword, crypto).value, crypto.utf8;
    var i := Position(v.passwords, PasswordIdIs(item.id)).value;
    var entry := EncryptedPasswordItem(item.id, item.title, item.username, EncryptedText(c, u, iv, item.password),
                                       item.url, item.notes, item.category, v.passwords[i].createdAt, now);
    DecryptedEncrypted(c, u, iv, item.password);
    assert WithPassword(entry, item.password) == item.(createdAt := v.passwords[i].createdAt, updatedAt := now);
    DecryptAllReplace(c, u, v.passwords, i, entry);
  }

  /** The process-wide vault (`PASSWORD_VAULT`) and the vault file (`VAULT_FILE_PATH`). */
  class VaultService {
    var memory: Option<PasswordVault>
    var file: VaultFile

    constructor(file: VaultFile)
      ensures memory == None && this.file == file
    {
      memory := None;
      this.file := file;
    }

    /** `load_vault`: the file's vault, or why there is none. */
    function LoadVault(): (r: Result<PasswordVault, BackendError>)
      reads this
      ensures r.Ok? <==> file.Stored?
      ensures file.Stored? ==> r == Ok(file.vault)
      ensures file.Missing? ==> r == Err(VaultMissing)
      ensures file.Unreadable? ==> r == Err(VaultUnreadable(file.reason))
    {
      match file
      case Missing => Err(VaultMissing)
      case Unreadable(reason) => Err(VaultUnreadable(reason))
      case Stored(v) => Ok(v)
    }

    /** `get_vault`: the vault in memory, else the file's. */
    function GetVault(): (r: Result<PasswordVault, BackendError>)
      reads this
      ensures memory.Some? ==> r == Ok(memory.value)
      ensures memory.None? ==> r == LoadVault()
    {
      if memory.Some? then Ok(memory.value) else LoadVault()
    }

    /** `save_vault` then the store into `PASSWORD_VAULT`; a failed save changes nothing. */
    method Commit(v: PasswordVault, saveError: Option<string>)
      modifies this
      ensures saveError.None? ==> memory == Some(v) && file == Stored(v)
      ensures saveError.Some? ==> memory == old(memory) && file == old(file)
    {
      if saveError.None? {
        file := Stored(v);
        memory := Some(v);
      }
    }

    method InitializeVault(hashed: Result<string, string>, salt: seq<byte>, saveError: Option<string>)
      returns (r: Result<bool, BackendError>)
      modifies this
      ensures var plan := InitializePlan(old(file), hashed, salt);
        && r == Reply(plan, saveError)
        && if r.Ok? then memory == Some(plan.value.0) && file == Stored(plan.value.0)
           else memory == old(memory) && file == old(file)
    {
      var plan := InitializePlan(file, hashed, salt);
      if plan.Err? {
        return Err(plan.error);
      }
      Commit(plan.value.0, saveError);
      r := Reply(plan, saveError);
    }

    /** `verify_master_password`: always reads the file; on a match the file's vault goes to memory. */
    method VerifyMasterPassword(masterPassword: string, crypto: Crypto) returns (r: Result<bool, BackendError>)
      modifies this
      ensures old(LoadVault()).Err? ==> r == Err(old(LoadVault()).error)
      ensures old(LoadVault()).Ok? ==>
        var check := crypto.verify(masterPassword, old(LoadVault()).value.masterPasswordHash);
        r == (if check.Err? then Err(VerifyFailed(check.error)) else Ok(check.value))
      ensures memory == if r == Ok(true) then Some(old(LoadVault()).value) else old(memory)
      ensures file == old(file)
    {
      var loaded := LoadVault();
      if loaded.Err? {
        return Err(loaded.error);
      }
      var vault := loaded.value;
      var check := crypto.verify(masterPassword, vault.masterPasswordHash);
      if check.Err? {
        return Err(VerifyFailed(check.error));
      }
      if check.value {
        memory := Some(vault);
        return Ok(true);
      }
      r := Ok(false);
    }

    method GetPasswords(masterPassword: string, crypto: Crypto) returns (r: Result<seq<PasswordItem>, BackendError>)
      ensures GetVault().Err? ==> r == Err(GetVault().error)
      ensures GetVault().Ok? ==> r == PasswordsOf(GetVault().value, masterPassword, crypto)
    {
      var got := GetVault();
      if got.Err? {
        return Err(got.error);
      }
      var vault := got.value;
      var unlocked := Unlock(vault, masterPassword, crypto);
      if unlocked.Err? {
        return Err(unlocked.error);
      }
      var cipher := unlocked.value;
      var items := vault.passwords;
      var decrypted: seq<PasswordItem> := [];
      for i := 0 to |items|
        invariant DecryptAll(cipher, crypto.utf8, items[..i]) == Ok(decrypted)
      {
        var plain := DecryptData(cipher, crypto.utf8, items[i].password);
        DecryptAllStep(cipher, crypto.utf8, items, i, decrypted);
        if plain.Err? {
          return Err(DecryptFailed(plain.error));
        }
        decrypted := decrypted + [WithPassword(items[i], plain.value)];
      }
      assert items[..|items|] == items;
      r := Ok(decrypted);
    }

    /** `get_categories`: the stored categories as they are. */
    method GetCategories() returns (r: Result<seq<Category>, BackendError>)
      ensures GetVault().Err? ==> r == Err(GetVault().error)
      ensures GetVault().Ok? ==> r == Ok(GetVault().value.categories)
    {
      var got := GetVault();
      if got.Err? {
        return Err(got.error);
      }
      r := Ok(got.value.categories);
    }

    method AddPassword(item: CreatePasswordItem, masterPassword: string, crypto: Crypto, iv: Block, id: string, now: nat,
                       saveError: Option<string>) returns (r: Result<PasswordItem, BackendError>)
      modifies this
      ensures var plan := AddPasswordPlan(old(GetVault()), item, masterPassword, crypto, iv, id, now);
        && r == Reply(plan, saveError)
        && if r.Ok? then memory == Some(plan.value.0) && file == Stored(plan.value.0)
           else memory == old(memory) && file == old(file)
    {
      var got := GetVault();
      if got.Err? {
        return Err(got.error);
      }
      var vault := got.value;
      var unlocked := Unlock(vault, masterPassword, crypto);
      if unlocked.Err? {
        return Err(unlocked.error);
      }
      var encrypted := EncryptData(unlocked.value, crypto.utf8, iv, item.password);
      var entry := NewEntry(item, encrypted, id, now);
      vault := vault.(passwords := vault.passwords + [entry]);
      Commit(vault, saveError);
      if saveError.Some? {
        return Err(SaveFailed(saveError.value));
      }
      r := Ok(NewPassword(item, id, now));
    }

    method UpdatePassword(item: PasswordItem, masterPassword: string, crypto: Crypto, iv: Block, now: nat,
                          saveError: Option<string>) returns (r: Result<PasswordItem, BackendError>)
      modifies this
      ensures var plan := UpdatePasswordPlan(old(GetVault()), item, masterPassword, crypto, iv, now);
        && r == Reply(plan, saveError)
        && if r.Ok? then memory == Some(plan.value.0) && file == Stored(plan.value.0)
           else memory == old(memory) && file == old(file)
    {
      var got := GetVault();
      if got.Err? {
        return Err(got.error);
      }
      var vault := got.value;
      var unlocked := Unlock(vault, masterPassword, crypto);
      if unlocked.Err? {
        return Err(unlocked.error);
      }
      var encrypted := EncryptData(unlocked.value, crypto.utf8, iv, item.password);
      var index := Position(vault.passwords, PasswordIdIs(item.id));
      if index.None? {
        return Err(PasswordNotFound);
      }
      var i := index.value;
      var createdAt := vault.passwords[i].createdAt;
      vault := vault.(passwords := vault.passwords[i := EncryptedPasswordItem(item.id, item.title, item.username,
        encrypted, item.url, item.notes, item.category, createdAt, now)]);
      Commit(vault, saveError);
      if saveError.Some? {
        return Err(SaveFailed(saveError.value));
      }
      r := Ok(item.(createdAt := createdAt, updatedAt := now));
    }

    method DeletePassword(id: string, saveError: Option<string>) returns (r: Result<bool, BackendError>)
      modifies this
      ensures var plan := DeletePasswordPlan(old(GetVault()), id);
        && r == Reply(plan, saveError)
        && if r.Ok? then memory == Some(plan.value.0) && file == Stored(plan.value.0)
           else memory == old(memory) && file == old(file)
    {
      var got := GetVault();
      if got.Err? {
        return Err(got.error);
      }
      var vault := got.value;
      var index := Position(vault.passwords, PasswordIdIs(id));
      if index.None? {
        return Err(PasswordNotFound);
      }
      vault := vault.(passwords := RemoveAt(vault.passwords, index.value));
      Commit(vault, saveError);
      if saveError.Some? {
        return Err(SaveFailed(saveError.value));
      }
      r := Ok(true);
    }

    method AddCategory(category: Category, id: string, saveError: Option<string>) returns (r: Result<Category, BackendError>)
      modifies this
      ensures var plan := AddCategoryPlan(old(GetVault()), category, id);
        && r == Reply(plan, saveError)
        && if r.Ok? then memory == Some(plan.value.0) && file == Stored(plan.value.0)
           else memory == old(memory) && file == old(file)
    {
      var got := GetVault();
      if got.Err? {
        return Err(got.error);
      }
      var vault := got.value;
      var added := Category(id, category.name, category.icon);
      vault := vault.(categories := vault.categories + [added]);
      Commit(vault, saveError);
      if saveError.Some? {
        return Err(SaveFailed(saveError.value));
      }
      r := Ok(added);
    }

    method UpdateCategory(category: Category, saveError: Option<string>) returns (r: Result<Category, BackendError>)
      modifies this
      ensures var plan := UpdateCategoryPlan(old(GetVault()), category);
        && r == Reply(plan, saveError)
        && if r.Ok? then memory == Some(plan.value.0) && file == Stored(plan.value.0)
           else memory == old(memory) && file == old(file)
    {
      var got := GetVault();
      if got.Err? {
        return Err(got.error);
      }
      var vault := got.value;
      var index := Position(vault.categories, CategoryIdIs(category.id));
      if index.None? {
        return Err(CategoryNotFound);
      }
      vault := vault.(categories := vault.categories[index.value := category]);
      Commit(vault, saveError);
      if saveError.Some? {
        return Err(SaveFailed(saveError.value));
      }
      r := Ok(category);
    }

    method DeleteCategory(id: string, saveError: Option<string>) returns (r: Result<bool, BackendError>)
      modifies this
      ensures var plan := DeleteCategoryPlan(old(GetVault()), id);
        && r == Reply(plan, saveError)
        && if r.Ok? then memory == Some(plan.value.0) && file == Stored(plan.value.0)
           else memory == old(memory) && file == old(file)
    {
      var got := GetVault();
      if got.Err? {
        return Err(got.error);
      }
      var vault := got.value;
      var index := Position(vault.categories, CategoryIdIs(id));
      if index.None? {
        return Err(CategoryNotFound);
      }
      vault := vault.(categories := RemoveAt(vault.categories, index.value));
      Commit(vault, saveError);
      if saveError.Some? {
        return Err(SaveFailed(saveError.value));
      }
      r := Ok(true);
    }
  }
}
