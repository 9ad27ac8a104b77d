# Push packages and Shopify-staff detection, modelled in Dafny

This project models two pieces of the Shopify App CLI.

**The push-package repository** (`Script::Layers::Infrastructure::PushPackageRepository`).
`create_push_package` writes a compiled script to the build path
`<dir>/build/<script_name>.<compiled_type>`. It first creates the parent
directory with `mkdir_p`, then writes the file, and returns an immutable
`PushPackage` record. `get_push_package` resolves the same path. It raises
`PushPackageNotFoundError` when nothing exists there; otherwise it reads the
content back into an equivalent record. `<dir>` is the process-wide
`ScriptProject.current.directory`, while the script name comes from the
`script_project` argument. The model keeps the two apart: the directory is the
parameter `currentDirectory`.

The file system is explicit state: a map from paths to byte contents plus a set
of directories (`FileSystem.Fs`). The class `FileSystem.Context` holds this
state and offers `mkdir_p` and `write`. The pure functions `WriteOutcome`,
`CreateOutcome` and `GetOutcome` specify the repository's methods, and the
lemmas are proved about them. The file-system helpers' own failures propagate
out of `create_push_package` and `get_push_package`, because the source does not
rescue them. These failures are a regular file where `mkdir_p` needs a directory,
and a write or read aimed at a directory.

**Shopify-staff detection** (`ShopifyCli::Shopifolk`). If the persistent
`shopifolk` feature is on, `shopifolk?` answers true and changes nothing.
Otherwise it answers `shopifolk_by_gcloud? && shopifolk_by_dev?` and enables or
disables the feature to match. `shopifolk_by_gcloud?` looks up `account` in the
`[core]` section of the gcloud configuration. It tests that account against
`/@shopify.com\z/`. The dot in that regex is not escaped, so any character
except a newline may stand between `@shopify` and `com`; the model keeps this
behaviour (`UnescapedDot`). The parsed configuration is memoised per instance
with `||=`, so a missing file is looked for again on the next call. At class
level, a flag records "acting as the Shopify organization". `act_as` sets it,
`reset` clears it, and the query also consults the current project's
`shopify_organization` setting. The environment is an explicit input: the
parsed gcloud file and the set of existing paths.

Files: `wrappers.dfy` (Option, Result), `file_system.dfy`,
`push_package_repository.dfy`, `shopifolk.dfy`.

`get` raises `PushPackageNotFound` only when nothing exists at the build path.
`file_exist?` is also true for a directory, and then the read raises
`IsADirectory` (`GetOutcome`, `GetNotFound`).

## Model

| member | source | states |
|---|---|---|
| ScriptInfrastructure.PushPackageRepository.CreatePushPackage | lib/project_types/script/layers/infrastructure/push_package_repository.rb:10-23 | the new file-system state and the result are exactly `CreateOutcome` of the old state: the path is resolved, then the content is written with parent creation, then the record is built |
| ScriptInfrastructure.PushPackageRepository.GetPushPackage | lib/project_types/script/layers/infrastructure/push_package_repository.rb:25-40 | the result is `GetOutcome` of the current file system; the method has no `modifies` clause, so the file system is left untouched |
| ScriptInfrastructure.PushPackageRepository.WriteToPath | lib/project_types/script/layers/infrastructure/push_package_repository.rb:44-47 | `mkdir_p(dirname(path))`, then `write(path, content)` only if that succeeded; the new state and any error equal `WriteOutcome` |
| FileSystem.Context.MkdirP | lib/project_types/script/layers/infrastructure/push_package_repository.rb:45 | creates the directory and all its parents; if a regular file is in the way, it raises `FileInTheWay` naming the topmost such file and changes nothing |
| FileSystem.Context.Write | lib/project_types/script/layers/infrastructure/push_package_repository.rb:46 | stores the content at the path, replacing any earlier file; if the path is a directory, it raises `IsADirectory` and changes nothing |
| FileSystem.MkdirsKeepsValid | lib/project_types/script/layers/infrastructure/push_package_repository.rb:45 | a successful `mkdir_p` keeps files and directories disjoint, leaves every file alone and makes the directory exist |
| FileSystem.WrittenKeepsValid | lib/project_types/script/layers/infrastructure/push_package_repository.rb:46 | a successful write keeps files and directories disjoint, stores exactly the content and creates no directory |
| FileSystem.DirnameOfChild | lib/project_types/script/layers/infrastructure/push_package_repository.rb:45 | for a non-empty prefix, the parent of `prefix/base`, for a `base` without '/', is `prefix` |
| FileSystem.Dirname | lib/project_types/script/layers/infrastructure/push_package_repository.rb:45 | `File.dirname`: "." for a path without '/'; "/" when the only '/' is the first character; otherwise exactly the prefix before the last '/' |
| FileSystem.Mkdirs | lib/project_types/script/layers/infrastructure/push_package_repository.rb:45 | `mkdir_p` fails exactly when a directory it must create is a regular file, and the error names the shortest such file, the first one met going down from the top; on success the directories are the old ones plus `d` and its parent chain, and no file changes |
| FileSystem.FirstBlocking | lib/project_types/script/layers/infrastructure/push_package_repository.rb:45 | the file `mkdir_p` fails on: a regular file in the chain no longer than any other file in the chain, and none exactly when no element of the chain is a file |
| FileSystem.MkdirsNamesBlockingFile | lib/project_types/script/layers/infrastructure/push_package_repository.rb:45 | with a regular file at "/p", `mkdir_p("/p/build")` raises `FileInTheWay("/p")`, naming the blocking file and not the requested directory |
| FileSystem.ParentsInDirChain | lib/project_types/script/layers/infrastructure/push_package_repository.rb:45 | the chain `mkdir_p` creates contains every parent of `d`: each prefix that ends before a '/' |
| FileSystem.Exists | lib/project_types/script/layers/infrastructure/push_package_repository.rb:27 | `file_exist?` holds exactly when a read would not report a missing file, so it also holds for a directory, where the read raises `IsADirectory` |
| FileSystem.Written | lib/project_types/script/layers/infrastructure/push_package_repository.rb:46 | `write` fails exactly when the path is a directory; on success the path holds exactly the content, every other file is unchanged and the directories are unchanged |
| FileSystem.ReadFile | lib/project_types/script/layers/infrastructure/push_package_repository.rb:29 | `File.read` succeeds exactly on a regular file and returns its content; on a directory it raises `IsADirectory` |
| ScriptInfrastructure.FilePath | lib/project_types/script/layers/infrastructure/push_package_repository.rb:49-51 | `file_path`: the path is the directory, then `/build/`, then the script name, then '.', then the compiled type, and its length is their total |
| ScriptInfrastructure.FilePathParent | lib/project_types/script/layers/infrastructure/push_package_repository.rb:44-51 | if the script name and compiled type contain no '/', the directory created before the write is `<dir>/build` |
| ScriptInfrastructure.FilePathInjective | lib/project_types/script/layers/infrastructure/push_package_repository.rb:49-51 | for one directory and compiled type, different script names get different build paths |
| ScriptInfrastructure.CreatedPackage | lib/project_types/script/layers/infrastructure/push_package_repository.rb:10-23 | a created package has id `dir + "/build/" + script_name + "." + compiled_type` and copies the extension point type, script name, content, compiled type, metadata and config UI unchanged |
| ScriptInfrastructure.ReadPackage | lib/project_types/script/layers/infrastructure/push_package_repository.rb:25-40 | a package that was read back has the same deterministic id, its content is the file stored there, and it copies every other argument unchanged |
| ScriptInfrastructure.CreateFailsExactly | lib/project_types/script/layers/infrastructure/push_package_repository.rb:44-47 | create raises exactly when a regular file is in the way of a parent directory, or when the build path is already a directory |
| ScriptInfrastructure.CreateStoresContent | lib/project_types/script/layers/infrastructure/push_package_repository.rb:44-47 | after a successful create on a well-formed file system, the build path holds exactly the content, its parent directory exists, and the file system stays well formed |
| ScriptInfrastructure.CreateFrame | lib/project_types/script/layers/infrastructure/push_package_repository.rb:44-47 | create changes no file except the one at the build path; it removes no directory and adds only parents of the build path; a failed create changes no file |
| ScriptInfrastructure.GetNotFound | lib/project_types/script/layers/infrastructure/push_package_repository.rb:26-27 | get raises `PushPackageNotFound` exactly when nothing exists at the build path |
| ScriptInfrastructure.CreateThenGet | lib/project_types/script/layers/infrastructure/push_package_repository.rb:10-39 | round trip: after a successful create, get with the same arguments returns the very package create returned, holding the written content |
| ScriptInfrastructure.CreateTwice | lib/project_types/script/layers/infrastructure/push_package_repository.rb:10-12 | last writer wins: a second create for the same project and compiled type succeeds at the same path, and the file system then holds the second content there and nothing else new |
| ScriptInfrastructure.CreateIdempotent | lib/project_types/script/layers/infrastructure/push_package_repository.rb:10-12 | repeating a create with identical arguments gives an identical file system and package |
| ScriptInfrastructure.CreateKeepsOtherPackages | lib/project_types/script/layers/infrastructure/push_package_repository.rb:11-12 | for a created script name and compiled type without '/', creating that package does not change what get returns for another script in the same directory with the same compiled type |
| ShopifyCli.MatchesShopifyDomain | lib/shopify-cli/shopifolk.rb:67 | the account test holds exactly when the account is some user part, then `@shopify`, then one non-newline character, then `com` at the very end |
| ShopifyCli.Account | lib/shopify-cli/shopifolk.rb:67 | `dig("[core]", "account")` gives an account exactly when the ini, its `[core]` section and the `account` key all exist, and then it is that value |
| ShopifyCli.UnescapedDot | lib/shopify-cli/shopifolk.rb:67 | `dev@shopify.com` and `dev@shopify-com` match; `dev@shopify.com` followed by a newline, and `dev@gmail.com`, do not |
| ShopifyCli.ByGcloudCases | lib/shopify-cli/shopifolk.rb:66-68 | false without an ini, and false without `account` in `[core]`; otherwise it equals the domain test on that account |
| ShopifyCli.ShopifolkByGcloud | lib/shopify-cli/shopifolk.rb:66-68 | `shopifolk_by_gcloud?` holds exactly when `[core]` has an `account` that is a user part, then `@shopify`, one non-newline character and `com` |
| ShopifyCli.ShopifolkByDev | lib/shopify-cli/shopifolk.rb:70-72 | `shopifolk_by_dev?` holds exactly when both `/opt/dev/bin/dev` and `/opt/dev/.shopify-build` exist |
| ShopifyCli.MemoisedIni | lib/shopify-cli/shopifolk.rb:74-82 | `ini` is the held ini or the gcloud file's; a held ini is always kept; nil only when none is held and the file is absent |
| ShopifyCli.EnabledShortCircuits | lib/shopify-cli/shopifolk.rb:53 | if the flag is already on, the answer is true and the state (feature set and memoised ini) is unchanged |
| ShopifyCli.DisabledDecides | lib/shopify-cli/shopifolk.rb:55-61 | if the flag is off, the answer is `by_gcloud && by_dev` on the memoised ini and the environment |
| ShopifyCli.ShopifolkStep | lib/shopify-cli/shopifolk.rb:52-62 | `shopifolk?`: afterwards the `shopifolk` feature is enabled exactly when the answer was true, and no other feature changes |
| ShopifyCli.MemoSticks | lib/shopify-cli/shopifolk.rb:74-82 | once an instance holds a parsed ini it keeps it, whatever the file now says |
| ShopifyCli.EnabledAnswersTrue | lib/shopify-cli/shopifolk.rb:52-53 | while the flag is on, every check answers true in any environment |
| ShopifyCli.StepPersists | lib/shopify-cli/shopifolk.rb:5-6 | once `shopifolk?` has answered true, the next call on any instance sharing the feature store answers true and changes nothing, whatever the environment |
| ShopifyCli.OnceTrueAlwaysTrue | lib/shopify-cli/shopifolk.rb:5-6 | persistence: once a check has answered true, every later check answers true, whatever the environments |
| ShopifyCli.Shopifolk.IsShopifolk | lib/shopify-cli/shopifolk.rb:52-62 | the answer, the new feature set and the memoised ini are those of `ShopifolkStep` on the old state |
| ShopifyCli.Shopifolk.IsShopifolkByGcloud | lib/shopify-cli/shopifolk.rb:66-68 | the answer is the gcloud test on the ini after memoisation, and the memo is updated as `||=` does |
| ShopifyCli.Shopifolk.LoadIni | lib/shopify-cli/shopifolk.rb:74-82 | returns a held ini unchanged; otherwise it reads the gcloud file (nil when absent) and stores the result |
| ShopifyCli.ShopifolkClass.Check | lib/shopify-cli/shopifolk.rb:27-29 | the answer and the new feature set are those of `shopifolk?` on a fresh instance (no memoised ini) |
| ShopifyCli.ShopifolkClass.ActingAsShopifyOrganization | lib/shopify-cli/shopifolk.rb:35-37 | with a falsy flag, only the project's truthy `shopify_organization` decides; a truthy flag makes it hold; without a current project, only the flag decides |
| ShopifyCli.ShopifolkClass.ActAsShopifyOrganization | lib/shopify-cli/shopifolk.rb:31-33 | afterwards the flag is true and `acting_as_shopify_organization?` holds for every current project |
| ShopifyCli.ShopifolkClass.Reset | lib/shopify-cli/shopifolk.rb:39-41 | afterwards the flag is nil, and `acting_as_shopify_organization?` holds exactly when a current project exists whose `shopify_organization` is truthy |
| ShopifyCli.ShopifolkClass.SetActingAsShopifyOrganization | lib/shopify-cli/shopifolk.rb:14 | after the attribute writer, `acting_as_shopify_organization?` is the truthiness of the value written, or-ed with the project setting |

## Left out

- File I/O itself: the implementation of `ShopifyCli::Context` (FileUtils, `File.write`) is replaced by the abstract `Fs` state; its helpers act on the path they are given, and joining paths to the context root is not modelled.
- `Dirname` follows Ruby's `File.dirname` on paths without repeated or trailing '/'. Collapsing repeated separators and dropping trailing separators are not modelled.
- `FileSystem.Fs.Valid` does not require the parent of a file or directory to be a directory. The model therefore admits states that are not a tree, which a real file system never reaches. On such states `Mkdirs` fails on any regular file in the chain, while `FileUtils.mkdir_p` only tries the directories below the deepest one that already exists.
- `FileSystem.Context.Write`: a missing parent directory (`ENOENT`) is not modelled; the repository always creates the parent first.
- Permissions, disk-full conditions and other operating-system errors are not modelled.
- Byte encodings: content is a sequence of bytes, and Ruby string encodings are not modelled.
- `CLI::Kit::Ini` parsing and parse errors are not part of this model. The environment supplies the parsed gcloud configuration, or None when the file is absent. The expansion of `~` in `GCLOUD_CONFIG_FILE` is not modelled either.
- `ShopifyCli::Feature` storage is reduced to a set of enabled feature names held in `FeatureStore`.
- The Ruby regex engine is not modelled. `/@shopify.com\z/` is written out as the suffix test it amounts to.
- `ShopifyCli.ShopifolkClass.ActingAsShopifyOrganization`: it returns Ruby truthiness as a boolean. The source returns the config value itself when that value is truthy.
- `SmartProperties` checking of the `ctx` property is not modelled.
- Metadata and the config UI schema are opaque type parameters. Their parsing and content are not modelled.
- The push command, the draft-update task and the Rust task runner are not part of this model. The same holds for their build subprocess, timestamp formatting, messages and environment checks.
