# PasswordDisk core, modelled in Dafny

PasswordDisk is a local password vault. A Tauri back end (`src-tauri/src/lib.rs`) keeps a
`PasswordVault` in a JSON file and in a process-wide copy. The vault holds a bcrypt hash of the
master password, a hex salt, password entries whose `password` field is AES-encrypted, and
categories. A React front end (`src/App.tsx`) authenticates, caches the decrypted passwords and the
categories, filters them, and edits them through back-end commands. This project models:

- `session.dfy`, module `Session`: the session controller of `App.tsx`, as a class `VaultSession`.
  - Its fields are the component's state.
  - Each handler is a method whose back-end call is a parameter holding that call's outcome.
  - A ghost log `calls` records the commands issued, in order.
  - The list filter is a pure function with lemmas.
- `backend.dfy`, module `Backend`: the commands of `lib.rs`.
  - Each mutating command is split in two. A pure "plan" function computes the vault to save and
    the answer. The method of class `VaultService` runs that plan against the in-memory vault
    (`PASSWORD_VAULT`) and the vault file.
  - `get_passwords` decrypts with a loop proved against `PasswordsOf`.
- `cipher.dfy`, module `Cipher`: the padding, block loop and IV framing of `encrypt_data` and
  `decrypt_data`.
  - Padding follows PKCS#7, section 6.3 of RFC 5652.
  - The AES-256 block cipher is a pair of functions over 16-byte blocks. A predicate `Inverts`
    states that decryption undoes encryption, and the round-trip lemmas assume it as a precondition.
  - The blocks are transformed in place in an `array`, as the `chunks_mut(16)` loops do.
- `hex.dfy`, module `Hex`: the `hex` crate's encode and decode.
  - Encoding writes lower-case digits.
  - Decoding works on the UTF-8 bytes of the text, as the crate's `decode` does. An odd byte count
    is rejected before any byte is examined. A byte that is not a hex digit is reported as that
    byte read as a character, with its byte index.
- `generator.dfy`, module `Generator`: `generate_password`'s charset and loop. The random index is
  a nondeterministic choice.
- `i18n.dfy`, module `I18n`: `t` (a dotted-key walk with fallback, then first-occurrence parameter
  substitution) and `getInitialLanguage`.
- `file_details.dfy`, module `FileDetails`: `formatPath`.
- `rename_dialog.dfy`, module `RenameDialog`: the rename dialog's state.
  - Each effect runs when one of its dependencies changes, in declaration order.
  - The submit rule and the disabled condition are pure.
- `text.dfy`, `seqs.dfy`, `entities.dfy` and `wrappers.dfy` hold the supporting definitions:
  - the JavaScript string operations the front end uses (`trim`, ASCII `toLowerCase`, `includes`,
    `replace` of the first match, `split`);
  - sequence search, removal and filtering;
  - the entities `PasswordItem` and `Category`;
  - `Option` and `Result`.

Behaviour worth knowing that the model keeps as the code has it:

- The front end's duplicate-name check compares the *trimmed* new name, but sends the name as typed
  (`Session.TrimmedCheckAdmitsDuplicateName`). Category names are therefore not kept unique.
- Renaming a category does not change the category of the passwords that use it.
- `delete_password` in the back end removes the first entry with the id. The front end's cache
  removes every entry with that id. The two differ only if ids collide. Ids are timestamps in
  milliseconds and are not guaranteed unique.
- `decrypt_data` checks only the last padding byte (`Cipher.UnpadIgnoresOtherPaddingBytes`).
- The random IV is written in front of the ciphertext but never used (`Cipher.CiphertextIgnoresIv`).
- Blocks are enciphered independently, so equal plaintext blocks give equal ciphertext blocks
  (`Cipher.EqualBlocksEncryptEqually`).
- Reopening the rename dialog while the target still exists hides the overwrite warning
  (`RenameDialog.ReopenWithTargetStillPresent`).

## Model

| member | source | states |
|---|---|---|
| Session.MatchesSearch | src/App.tsx:156-159 | an empty search matches every entry; otherwise an entry matches exactly when the lower-cased term occurs somewhere in the lower-cased title, username or url |
| Session.Shown | src/App.tsx:154-161 | an entry passes the filter test only in the selected category (any category for "所有"), and every entry passes with "所有" and an empty search |
| Session.FilterPasswords | src/App.tsx:154-161 | the visible list is no longer than the cache, and every entry on it is in the selected category (any for "所有") and matches the search |
| Session.VaultSession.FilteredPasswords | src/App.tsx:154-161 | the list on screen is a subsequence of the cached passwords and holds each one exactly as often as the cache does when it passes the category and search tests, otherwise never |
| Session.FilterSelectsInOrder | src/App.tsx:154-161 | the visible list is a subsequence of the cached passwords, in their order, and holds each entry exactly as often as the cache does when it is in the selected category (any category for "所有") and matches the search, otherwise never |
| Session.FilterAllShowsEverything | src/App.tsx:154-161 | with "所有" selected and an empty search the whole cache is shown, in order |
| Session.SearchIgnoresCase | src/App.tsx:156-159 | an entry matches a search term exactly when it matches the lower-cased term |
| Session.DefaultCategory | src/App.tsx:189 | the add form's category is never "所有": it is the selected category, or "个人" when "所有" is selected |
| Session.Merge | src/App.tsx:243-246 | the update payload keeps the edited entry's id and timestamps and takes every field from the form |
| Session.RemoveByIdKeepsOthers | src/App.tsx:281 | after a delete no cached entry has the deleted id; the others stay in order with their multiplicity |
| Session.TrimmedCheckAdmitsDuplicateName | src/App.tsx:297-311 | a name with a trailing space passes the duplicate check beside an identical existing name |
| Session.Toggled | src/App.tsx:438-443 | the toggled id's flag becomes the negation of its old value (a missing flag counts as false); every other id keeps its flag |
| Session.ToggleTwiceRestores | src/App.tsx:438-443 | toggling the same id twice gives back its original flag and leaves other flags alone |
| Session.VaultSession.constructor | src/App.tsx:40-77 | the mounted state: not authenticated, no error, empty cache, filter "所有", empty search, default forms, no calls |
| Session.VaultSession.LoadPasswordsAndCategories | src/App.tsx:136-151 | issues `get_passwords` and `get_categories`; both lists are replaced together when both succeed, otherwise both are kept and the error is "加载数据失败" |
| Session.VaultSession.HandleMasterPasswordSubmit | src/App.tsx:95-133 | a registration with mismatched passwords sets "两次输入的密码不一致" and issues no call; otherwise authentication is gained exactly when `initialize_vault` or `verify_master_password` answers true; a false answer or a failure sets its error and keeps the cache; after unlocking, a failed load sets "加载数据失败" without undoing authentication; a successful load clears the error and replaces both lists |
| Session.VaultSession.OpenAddDialog | src/App.tsx:181-192 | nothing is being edited and the form is empty with the default category |
| Session.VaultSession.SavePassword | src/App.tsx:236-271 | an edit sends the merged entry to `update_password` and on success replaces every cached entry with the returned id; an add sends the form to `add_password` and appends the returned entry; a failure keeps the cache and sets "保存密码失败" |
| Session.VaultSession.DeletePassword | src/App.tsx:274-293 | with nothing selected nothing happens; otherwise `delete_password` is issued and, on success, every entry with that id leaves the cache; a failure keeps it and sets "删除密码失败" |
| Session.VaultSession.AddCategory | src/App.tsx:296-325 | a blank name does nothing; a trimmed name already present sets "分类名称已存在" with no call; otherwise the untrimmed name is sent with an empty id, a success appends the returned category and resets the form, a failure keeps the list and sets "添加分类失败" |
| Session.VaultSession.EditCategory | src/App.tsx:328-362 | as adding, with the edited category excluded from the name check; a success replaces every category with the returned id and ends editing; the cached passwords never change |
| Session.VaultSession.DeleteCategory | src/App.tsx:365-415 | a category still named by a password is refused with an alert and no call; otherwise `delete_category` is issued, and only on success the id leaves the list and a filter showing that category returns to "所有"; a failure sets "删除分类失败" |
| Session.VaultSession.TogglePasswordExpanded | src/App.tsx:438-443 | the expanded flags become `Toggled` of the old flags |
| Backend.Unlock | src-tauri/src/lib.rs:168-176 | a verification failure or a false answer is an error; a verified password with a salt that is not valid hex gives the salt-decoding error; a key is produced exactly when the master password verifies and the salt decodes, and it is derived from that password and salt |
| Backend.DecryptAll | src-tauri/src/lib.rs:179-197 | a decryption of the entries has one result per entry; a failure reports the error of the first entry that does not decrypt, every earlier entry decrypting |
| Backend.DecryptAllReplace | src-tauri/src/lib.rs:179-197 | replacing one stored entry by one that decrypts changes only that position of the decrypted list, to the new entry in clear |
| Backend.DecryptAllSucceeds | src-tauri/src/lib.rs:179-197 | decrypting the entries succeeds exactly when every entry decrypts, and then yields the entries in stored order with only the password replaced |
| Backend.PasswordsOf | src-tauri/src/lib.rs:164-198 | an unlock error (wrong master password, failed verification, bad salt) is returned as is; once unlocked, the answer succeeds exactly when every stored password decrypts, and otherwise is the decryption failure of the first entry that does not decrypt; a result has one entry per stored entry, equal to it except the password, which is the decryption of the stored one |
| Backend.InitializePlan | src-tauri/src/lib.rs:84-135 | an existing vault file is an error and a failed hash is reported as such; the vault is created exactly when there is no file and hashing succeeds, with that hash, the hex of the salt, no passwords and exactly five categories with ids "1" to "5", "所有" first |
| Backend.AddPasswordPlan | src-tauri/src/lib.rs:207-264 | a load or master-password error is returned as is, and the plan succeeds exactly when the vault loads and unlocks; the appended entry is the form's fields with the password encrypted under the vault's key, and the master-password hash and salt are unchanged; a success appends exactly one entry with the fresh id and `created_at == updated_at == now`, keeps the rest and the categories, and answers the clear-text entry |
| Backend.UpdatePasswordPlan | src-tauri/src/lib.rs:274-333 | a load or master-password error is returned as is; once unlocked, "not found" exactly when no entry has the id and success exactly when one has; only the first entry with the id is replaced, by the given fields with the password encrypted under the vault's key, its old `created_at` and `updated_at = now`; the order, all other entries, the categories, the master-password hash and the salt are unchanged, and the answer is the given entry with those timestamps |
| Backend.UpdatedPasswordReadsBack | src-tauri/src/lib.rs:274-333 | after an update under a master password, `get_passwords` returns the old list with the updated entry, in clear, at its old position |
| Backend.DeletePasswordPlan | src-tauri/src/lib.rs:337-351 | a load error is returned as is; "not found" exactly when no entry has the id and success exactly when one has; otherwise exactly the first entry with the id is removed, the rest keep their order, the categories, master-password hash and salt are unchanged, and the answer is true |
| Backend.AddCategoryPlan | src-tauri/src/lib.rs:355-368 | a load error is returned as is; otherwise the category is appended with the fresh id replacing the caller's; the passwords, master-password hash and salt are unchanged |
| Backend.UpdateCategoryPlan | src-tauri/src/lib.rs:378-392 | a load error is returned as is; "not found" exactly when no category has the id and success exactly when one has; otherwise the first category with the id is replaced by the given one; the passwords, master-password hash and salt are unchanged |
| Backend.DeleteCategoryPlan | src-tauri/src/lib.rs:396-410 | a load error is returned as is; "not found" exactly when no category has the id and success exactly when one has; otherwise exactly the first one with the id is removed, the rest keep their order, the passwords, master-password hash and salt are unchanged, and the answer is true |
| Backend.Reply | src-tauri/src/lib.rs:266-270 | a command succeeds exactly when its plan succeeds and saving succeeds; a plan error is answered as is, a save error after a successful plan is answered as a save failure, and a success answers the plan's answer |
| Backend.AddedPasswordReadsBack | src-tauri/src/lib.rs:239-264 | a password added under a master password is read back by `get_passwords` in clear text, after the entries already there |
| Backend.VaultService.constructor | src-tauri/src/lib.rs:61-62 | at start-up no vault is in memory (`PASSWORD_VAULT` is `None`) and the service works on the given vault file |
| Backend.VaultService.LoadVault | src-tauri/src/lib.rs:468-480 | a vault is loaded exactly when the file holds one, and it is that vault; a missing file and an unreadable file give their own errors |
| Backend.VaultService.GetVault | src-tauri/src/lib.rs:454-465 | the in-memory vault when there is one, else the file's |
| Backend.VaultService.Commit | src-tauri/src/lib.rs:266-268 | after a successful save both the file and the in-memory vault hold the new vault; a failed save changes neither |
| Backend.VaultService.InitializeVault | src-tauri/src/lib.rs:84-144 | answers `Reply` of `InitializePlan`; the new vault is stored only if the command succeeds |
| Backend.VaultService.VerifyMasterPassword | src-tauri/src/lib.rs:147-161 | always reads the file; answers the verification's result, and only a true answer puts the file's vault in memory |
| Backend.VaultService.GetPasswords | src-tauri/src/lib.rs:164-198 | the decrypting loop answers exactly `PasswordsOf` of the current vault, or the vault's load error |
| Backend.VaultService.GetCategories | src-tauri/src/lib.rs:201-204 | the current vault's categories unchanged, or its load error |
| Backend.VaultService.AddPassword | src-tauri/src/lib.rs:207-271 | answers `Reply` of `AddPasswordPlan`; memory and file change only on success, to the planned vault |
| Backend.VaultService.UpdatePassword | src-tauri/src/lib.rs:274-334 | answers `Reply` of `UpdatePasswordPlan`; memory and file change only on success |
| Backend.VaultService.DeletePassword | src-tauri/src/lib.rs:337-352 | answers `Reply` of `DeletePasswordPlan`; memory and file change only on success |
| Backend.VaultService.AddCategory | src-tauri/src/lib.rs:355-375 | answers `Reply` of `AddCategoryPlan`; memory and file change only on success |
| Backend.VaultService.UpdateCategory | src-tauri/src/lib.rs:378-393 | answers `Reply` of `UpdateCategoryPlan`; memory and file change only on success |
| Backend.VaultService.DeleteCategory | src-tauri/src/lib.rs:396-411 | answers `Reply` of `DeleteCategoryPlan`; memory and file change only on success |
| Generator.CharRange | src-tauri/src/lib.rs:426-432 | an inclusive character range has `hi - lo + 1` characters, exactly those between the bounds |
| Generator.Charset | src-tauri/src/lib.rs:423-436 | the charset has 26, 26, 10 and 26 characters per selected class and is empty exactly when no class is selected |
| Generator.CharsetMembers | src-tauri/src/lib.rs:423-436 | a character is in the charset exactly when its class is selected |
| Generator.GeneratePassword | src-tauri/src/lib.rs:414-451 | fails with "至少需要选择一种字符类型" exactly when all four flags are false; otherwise the password has exactly `length` characters, each from the charset |
| Cipher.PaddingSize | src-tauri/src/lib.rs:508 | the padding length is 1 to 16 and makes the length a multiple of 16 |
| Cipher.Pad | src-tauri/src/lib.rs:507-509 | the padded buffer is a multiple of 16, strictly longer than the data and at most 16 longer; it starts with the data and every added byte holds the padding length |
| Cipher.Unpad | src-tauri/src/lib.rs:552-555 | bytes are cut off only when the last byte is 1 to 16, and then exactly that many |
| Cipher.UnpadPad | src-tauri/src/lib.rs:552-555 | unpadding a padded buffer gives back the data |
| Cipher.UnpadIgnoresOtherPaddingBytes | src-tauri/src/lib.rs:552-555 | a buffer whose padding bytes other than the last are wrong is still cut |
| Cipher.MapBlocks | src-tauri/src/lib.rs:512-516 | transforming every 16-byte block keeps the length |
| Cipher.MapBlocksAt | src-tauri/src/lib.rs:512-516 | block `k` of the output is the transform of block `k` of the input |
| Cipher.WriteBlock | src-tauri/src/lib.rs:515 | writing a block back over a chunk changes exactly those 16 bytes of the buffer |
| Cipher.MapBlocksInverse | src-tauri/src/lib.rs:546-550 | decrypting each block of the encrypted blocks gives back the buffer when the block cipher is inverted |
| Cipher.EqualBlocksEncryptEqually | src-tauri/src/lib.rs:512-516 | equal plaintext blocks give equal ciphertext blocks |
| Cipher.TransformBlocks | src-tauri/src/lib.rs:511-516 | the in-place loop leaves the buffer equal to every 16-byte block of the old buffer transformed |
| Cipher.Sealed | src-tauri/src/lib.rs:504-520 | the output starts with the 16-byte IV, is whole blocks, and is longer than the IV and the data together |
| Cipher.CiphertextIgnoresIv | src-tauri/src/lib.rs:518-520 | two encryptions of the same data under different IVs agree on everything after the first 16 bytes |
| Cipher.Opened | src-tauri/src/lib.rs:536-555 | fewer than 16 bytes are rejected as too short; the bytes open exactly when the part after the IV is whole blocks, and the result is no longer than that part |
| Cipher.OpenedSealed | src-tauri/src/lib.rs:540-555 | opening what was sealed gives back the data, whatever the IV |
| Cipher.EncryptedText | src-tauri/src/lib.rs:495-522 | the stored text is valid hex whose decoding is the IV followed by the enciphered padded data |
| Cipher.Decrypted | src-tauri/src/lib.rs:526-558 | a hex error is reported as such, an error in opening the bytes is passed on, opened bytes that are not valid UTF-8 give the UTF-8 error, and the text is returned exactly when the opened bytes are valid UTF-8 |
| Cipher.DecryptedEncrypted | src-tauri/src/lib.rs:495-558 | `decrypt_data` of `encrypt_data` gives back the plaintext under an inverted cipher and a round-tripping UTF-8 |
| Cipher.EncryptData | src-tauri/src/lib.rs:495-523 | the method, with its in-place block loop, returns the hex of IV followed by the enciphered padded data |
| Cipher.DecryptData | src-tauri/src/lib.rs:526-558 | the method, with its in-place block loop, returns `Decrypted` |
| Hex.Encode | src-tauri/src/lib.rs:522 | two digits per byte |
| Hex.CharUtf8 | src-tauri/src/lib.rs:535 | a character is one to four UTF-8 bytes; exactly the characters below 0x80 are one byte, their own code; every byte of a longer encoding is at least 0x80 |
| Hex.Utf8Of | src-tauri/src/lib.rs:535 | a text has at least as many UTF-8 bytes as characters |
| Hex.Utf8OfAscii | src-tauri/src/lib.rs:535 | a text of characters below 0x80 is its own byte sequence |
| Hex.Decode | src-tauri/src/lib.rs:535 | an odd number of UTF-8 bytes is rejected first, and only then; a result has half as many bytes as the text has UTF-8 bytes |
| Hex.DecodeEncode | src-tauri/src/lib.rs:175 | decoding the hex of bytes gives back the bytes, as the salt's storage relies on |
| Hex.DecodeRejectsNonDigit | src-tauri/src/lib.rs:535 | a text with an even number of UTF-8 bytes and a non-digit character is rejected |
| Hex.NonAsciiCountsBytes | src-tauri/src/lib.rs:535 | "é" is refused at its first byte 0xC3, index 0, and "éa" (three bytes) is refused as odd length |
| Text.Trim | src/App.tsx:297 | trimming removes leading and trailing white space only: the result is a slice of the input, everything cut before and after it is white space, it is empty exactly when the input is all white space, and it neither starts nor ends with white space |
| Text.ToLower | src/App.tsx:156-159 | lower-casing keeps the length, leaves no ASCII capital, shifts each ASCII capital to its small letter and keeps every other character |
| Text.Contains | src/App.tsx:156-159 | a text includes a pattern exactly when the pattern occurs at some index; the empty pattern is always included, and an included pattern is no longer than the text |
| Text.ToLowerIdempotent | src/App.tsx:156-159 | lower-casing twice is lower-casing once |
| Text.IndexOf | src/i18n.ts:68 | the first index where the pattern occurs, or none when it never occurs |
| Text.ReplaceFirst | src/i18n.ts:68 | only the first occurrence of the pattern is replaced; text without it is unchanged |
| Text.Split | src/i18n.ts:54 | at least one piece, none containing the separator |
| Text.JoinSplit | src/i18n.ts:54 | joining the pieces with the separator gives back the text |
| Text.SplitHead | src/i18n.ts:29 | the first piece is the text up to the first separator, or the whole text |
| Seqs.Position | src-tauri/src/lib.rs:301 | the first index whose element satisfies the test, or none when none does |
| Seqs.RemoveAt | src-tauri/src/lib.rs:342 | removing an index shifts the later elements down by one and removes one occurrence of that element |
| Seqs.FilterCounts | src/App.tsx:154-161 | a filter keeps each element as often as it occurs when it passes, never otherwise |
| Seqs.FilterIsSubsequence | src/App.tsx:154-161 | a filter keeps the order of the elements it keeps |
| Seqs.ReplaceWhere | src/App.tsx:249 | every element passing the test is replaced and the others are kept, at the same positions |
| I18n.LookupAppend | src/i18n.ts:57-63 | walking a path is walking its first part and then the rest from where that ends |
| I18n.MissingSegmentYieldsKey | src/i18n.ts:58-61 | when a segment is missing along the walk, `t` answers the key itself |
| I18n.Translated | src/i18n.ts:52-73 | the key when the walk fails; the string with the parameters substituted when the walk ends at a string; the group itself, whatever the parameters, when the walk ends at a group, and a group only then; with no parameters whatever the walk reaches is answered unchanged |
| I18n.SubstituteAppend | src/i18n.ts:67-69 | parameters are applied one after the other, in order |
| I18n.SubstituteAbsentPlaceholder | src/i18n.ts:67-69 | a parameter whose placeholder does not occur changes nothing |
| I18n.OnlyFirstOccurrenceFilled | src/i18n.ts:68 | with "{n}-{n}" and n = "x" the result is "x-{n}" |
| I18n.Translate | src/i18n.ts:52-73 | the loop over the key's segments answers `Translated`: the key when a segment is missing, the substituted string at a string, the group itself at a group |
| I18n.Supported | src/i18n.ts:25 | a language is supported exactly when its code is "en" or "zh" |
| I18n.InitialLanguage | src/i18n.ts:23-35 | a supported saved choice wins; otherwise the browser tag's prefix before the first "-" if supported; otherwise Chinese |
| I18n.SavedLanguageRestored | src/i18n.ts:24-27 | a saved language code is restored whatever the browser reports |
| I18n.RegionalBrowserTag | src/i18n.ts:29-32 | with nothing saved, "en-…" selects English and "zh-…" selects Chinese |
| I18n.UnsupportedBrowserFallsBack | src/i18n.ts:29-34 | with nothing saved, a browser language code other than "en" and "zh" gives Chinese, with or without a region after "-" |
| FileDetails.FormatPath | src/components/FileDetailsDialog.tsx:32-46 | an empty path stays empty; exactly the four characters of the extended-length prefix are dropped when present, nothing otherwise; every "/" becomes "\" at the same position and every other character is kept; no "/" remains |
| FileDetails.FormatPathStable | src/components/FileDetailsDialog.tsx:38-43 | formatting again changes nothing unless the result itself starts with the prefix |
| FileDetails.SlashesFormTheLongPrefix | src/components/FileDetailsDialog.tsx:38-43 | "//?/x" formats to the prefix followed by "x", and formatting that again strips it |
| FileDetails.DevicePrefixKept | src/components/FileDetailsDialog.tsx:38-40 | a path starting with the device prefix `\\.\` keeps those four characters and its length |
| RenameDialog.Submit | src/components/RenameDialog.tsx:38-44 | confirms exactly when the trimmed name is non-empty and the raw name differs from the file name, passing the trimmed name and the overwrite flag; otherwise closes |
| RenameDialog.DisabledIffSubmitCloses | src/components/RenameDialog.tsx:106 | the confirm button is disabled exactly when a submit would close |
| RenameDialog.TrailingSpaceConfirmsSameName | src/components/RenameDialog.tsx:39-40 | "a " for the file "a" confirms with the name "a" |
| RenameDialog.RenameDialogState.constructor | src/components/RenameDialog.tsx:18-34 | on mount the name is the file name, overwrite is off, and the warning shows exactly when the target exists |
| RenameDialog.RenameDialogState.Rerender | src/components/RenameDialog.tsx:23-34 | when `isOpen` or `fileName` changes and the dialog is open, the name, overwrite flag and warning are reset; when `targetExists` changes afterwards, the warning equals it |
| RenameDialog.RenameDialogState.EditName | src/components/RenameDialog.tsx:70 | the typed text becomes the name |
| RenameDialog.RenameDialogState.SetOverwrite | src/components/RenameDialog.tsx:93 | the checkbox sets the overwrite flag |
| RenameDialog.RenameDialogState.HandleSubmit | src/components/RenameDialog.tsx:38-44 | confirms exactly when the button is enabled, with the trimmed name and the current overwrite flag |
| RenameDialog.ReopenWithTargetStillPresent | src/components/RenameDialog.tsx:23-34 | closing and reopening while the target exists leaves the warning hidden |

## Left out

- Cryptography is abstract.
  - AES-256 is a pair of block functions; decryption inverting encryption is a stated premise of
    the round-trip lemmas.
  - SHA-256 `derive_key` and AES key setup are one function `cipherFor` from password and salt.
  - bcrypt `verify` is a function parameter, and bcrypt `hash` is an outcome parameter.
  - The random salt, IV, password characters, ids and clock are parameters or nondeterministic
    choices.
- UTF-8 conversion in `encrypt_data` and `decrypt_data` (`as_bytes`, `String::from_utf8`) is an
  abstract pair of functions `Cipher.Utf8`; that decoding inverts encoding is a stated premise.
  `Hex.Utf8Of` is a separate, concrete encoder, needed because `hex::decode` counts and reports
  bytes. The two are not tied together: `String::from_utf8`'s validation is not modelled
  concretely, and nothing proved about the cipher depends on the byte values of the encoding.
- The key-creation failure branches of `encrypt_data` and `decrypt_data` are not modelled. The key
  is always 32 bytes, so they cannot be taken. `Cipher.EncryptData` therefore returns a string
  rather than a `Result`.
- A ciphertext that is not whole blocks makes `decrypt_data` panic in `copy_from_slice`. It is
  modelled as the error value `PartialBlockPanic`.
- File I/O, JSON and paths are reduced to a `VaultFile` value (missing, unreadable or holding a
  vault) and an optional save error. Saving is taken as all-or-nothing: a failed save leaves the
  file as it was.
- The global `RwLock`, async calls, `Promise.all` and Tauri `invoke` are left out. Calls run one
  at a time, each with its outcome passed in.
- Timestamps are unbounded naturals, and the u64 width is not modelled. Fresh ids are parameters.
  Their uniqueness is not assumed.
- `toLowerCase` is ASCII only. JavaScript's Unicode case mapping is not modelled.
- `t` treats the translations as a tree in which a string has no children and a group has only its
  own keys. Four JavaScript behaviours are left out: indexing into a string, keys found through the
  prototype chain (`t("constructor")` reaches `Object.prototype.constructor` instead of answering
  the key), regular-expression metacharacters in parameter names, and `$` patterns in replacement
  values.
- The plain state setters are left out: `setMasterPassword`, `setConfirmPassword`,
  `setIsRegistering`, `setSearchTerm`, `setSelectedCategory` and the form `onChange` handlers each
  assign one field and have nothing to prove. The handlers read those fields as they stand.
- The front end's `loading` flag, dialog open flags, custom alert visibility, clipboard copy,
  generator dialog and the `open…Dialog` helpers other than `openAddDialog` are presentation and
  are left out. The alert text is kept.
- `greet`, `formatSize`, `formatDate` and the other presentation components are not part of this
  model. `localStorage` and `navigator` appear as the saved-language and browser-tag inputs.
