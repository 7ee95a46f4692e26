# gocrete core, modelled in Dafny

gocrete generates Go web-service projects from embedded template bundles. Its engine does three things:

- It validates a capability selection: router, database, OpenAPI mode, migrations and Docker.
- It overlays the base bundle on the project directory, then the bundle of every selected module, all sharing one context.
- It runs the Go tools.

The `add` command does one more thing: it reads the module path back from an existing `go.mod` and overlays a single module.

This project models that core. The model's pieces, file by file:

- **Paths and the destination filesystem** (`paths.dfy`, `filetree.dfy`, `os.dfy`).
  - A path is a sequence of segments.
  - The filesystem is a value `FileTree.Tree`: regular files with their contents, plus a set of directories.
  - `os.MkdirAll`, `os.WriteFile`, `os.RemoveAll` and `os.ReadFile` are functions on that value, with their error cases.
  - The class `OS.FileSystem` holds the tree in mutable fields. Its methods change those fields exactly as the functions say.
- **The template store** (`store.dfy`). The embedded `embed.FS` is a read-only sequence of entries. `fs.WalkDir` is `Walk`, which lists the entries strictly below a bundle root in store order. A missing root is an error. The overlay, module and engine lemmas hold for every store order. `embed.FS` keeps its entries sorted, and for a sorted store the walk is in lexical path order (`WalkInLexicalOrder`).
- **The overlay applier** (`overlay.dfy`). This is `modules.ApplyModuleTemplate` and the engine's identical `applyTemplate`.
  - The callback (`StepRun`) handles one entry at a time:
    - A directory is created.
    - A file whose name ends in `.tmpl` is rendered, and lands without the suffix.
    - Any other file is copied.
    - Parent directories are created before each write.
    - The first failure stops the walk. Nothing already written is undone.
  - The methods `Visit`, `ApplyModuleTemplate` and `WriteFile` run on an `OS.FileSystem` and are proved equal to these functions.
  - `text/template` is a parameter `render`: a deterministic function from (content, data) to either the output or a failure.
- **Modules** (`recipe.dfy`, `postgres.dfy`, `mongo.dfy`, `openapi.dfy`, `docker.dfy`).
  - Each module's `Apply` follows the same pattern. It overlays its own bundle, and a bundle error is wrapped with the module's message. It then writes zero or more fixed files through `modules.WriteFile`; their errors are returned as they are.
  - `Recipes.Recipe` captures that pattern, and `RecipeRun` gives its meaning over a tree.
  - Every module has an imperative `Apply` proved equal to `RecipeRun` of its recipe, plus lemmas stating what that module writes.
- **The registry** (`registry.dfy`).
  - The closed set of modules, their `Name`, and dispatch of `Apply`.
  - The class `Registry`, a two-level map category → name → module, with `Register`, `GetModule` and the five registrations of `NewRegistry`.
  - The lemmas about the engine take any table that answers lookups as `NewRegistry`'s table does (`HoldsBuiltins`).
- **The go.mod scan** (`gomod.dfy`). These are the pieces of Go's `strings` package that `getModulePath` uses: `TrimSpace` over `unicode.IsSpace`, `HasPrefix`, `TrimPrefix` and `Split`. Also the scan for the first `module ` line, and the round trip from a written `module` line back to its path.
- **The engine** (`engine.dfy`).
  - `InitProject` and `AddModule` are specified as functions over a tree: `InitSpec` and `AddSpec`.
  - The class `Engine.Engine` holds a `Registry` and runs the same steps imperatively on an `OS.FileSystem`. Each method is proved equal to its specification function.
  - The context handed to modules is a value, so no module's `Apply` can change what a later module sees. In the source every module receives the same `*Context` and none of them writes to it.
  - The outcomes of `go mod init`, `go mod tidy` and `go fmt` are a parameter (`ToolResults`).

Errors are values of `Common.Error`. Each error that engine.go and the modules build with `fmt.Errorf` keeps its message text as a wrapping context, or it becomes its own constructor.

## Model

| member | source | states |
|---|---|---|
| Paths.Dir | internal/engine/engine.go:221 | `filepath.Dir` of a non-empty path: the path is its parent followed by its last segment |
| Paths.TrimSuffix | internal/engine/engine.go:212-213 | `strings.TrimSuffix`: with the suffix present, the result followed by the suffix is the input; otherwise the input is returned unchanged |
| Paths.Prefixes | internal/engine/engine.go:49 | the directories `MkdirAll(p)` needs are exactly the non-empty prefixes of p |
| FileTree.MkdirAll | internal/engine/engine.go:49-51 | `os.MkdirAll` succeeds exactly when no prefix of the path is a regular file; it then adds every prefix as a directory and leaves files alone; otherwise the tree is unchanged with a not-a-directory error; a well-formed tree stays well formed |
| FileTree.WriteFile | internal/engine/engine.go:225 | `os.WriteFile` succeeds exactly when the path is not a directory and its parent directory exists; it then sets that one file's contents; on failure nothing changes |
| FileTree.RemoveAll | internal/engine/engine.go:43-47 | `os.RemoveAll` succeeds exactly when the path is not the working directory and no regular file lies above it; a file above it is a not-a-directory error with nothing changed; on success it removes exactly the files and directories at or below the path and keeps every other file's contents; a missing path is not an error |
| FileTree.PrunedKeepsValid | internal/engine/engine.go:44 | removing a whole subtree keeps a well-formed tree well formed |
| FileTree.ReadFile | internal/engine/engine.go:296-299 | `os.ReadFile` returns the file's contents exactly when the path is a regular file, and an error otherwise |
| OS.FileSystem.constructor | internal/engine/engine.go:36 | the filesystem starts as the given tree |
| OS.FileSystem.MkdirAll | internal/engine/engine.go:49 | the new state and outcome are those of `FileTree.MkdirAll` on the old state |
| OS.FileSystem.WriteFile | internal/engine/engine.go:225 | the new state and outcome are those of `FileTree.WriteFile` on the old state |
| OS.FileSystem.RemoveAll | internal/engine/engine.go:44 | the new state and outcome are those of `FileTree.RemoveAll` on the old state |
| OS.FileSystem.ReadFile | internal/engine/engine.go:296 | returns what `FileTree.ReadFile` returns for the current state |
| TemplateStore.SegmentLessIrreflexive | internal/engine/engine.go:183 | no path segment sorts before itself in Go's string order |
| TemplateStore.PathLessIrreflexive | internal/engine/engine.go:183 | no path is visited before itself in walk order |
| TemplateStore.PathLessCommonPrefix | internal/engine/engine.go:183 | walk order below a bundle root is the order of the paths relative to the root |
| TemplateStore.Below | internal/engine/engine.go:183-199 | each listed entry lies strictly below the root, with its relative path and store contents; every store entry strictly below the root is listed; a sorted store gives a sorted listing |
| TemplateStore.Walk | internal/engine/engine.go:183-191 | `fs.WalkDir` fails with bundle-not-found exactly when the root is not in the store; otherwise it lists exactly the entries strictly below the root, the root itself skipped |
| TemplateStore.WalkInLexicalOrder | internal/engine/engine.go:183 | a sorted store is walked in strictly increasing lexical order of relative paths, so no relative path is visited twice |
| Overlay.Destination | gocrete/internal/modules/registry.go:90-109 | an entry lands at dest joined with its relative path; a template file loses exactly one trailing `.tmpl` from its name and keeps its directory |
| Overlay.Output | gocrete/internal/modules/registry.go:102-114 | a `.tmpl` file yields its rendering with the context data; any other file is copied as it is |
| Overlay.WriteFileRun | gocrete/internal/modules/registry.go:139-144 | `modules.WriteFile` succeeds exactly when the path is not a directory and no parent is a file; it then creates the parents and sets the file; a failure keeps every file's contents |
| Overlay.StepRun | gocrete/internal/modules/registry.go:79-122 | one callback: on success the entry's write and directories are added; a render failure names the template's source path and changes nothing; no failure changes a file |
| Overlay.WalkRun | gocrete/internal/modules/registry.go:79-122 | the walk never removes a file or directory and keeps a well-formed tree well formed |
| Overlay.BundleRun | gocrete/internal/modules/registry.go:78-123 | a bundle missing from the store is a bundle-not-found error with the tree unchanged |
| Overlay.WalkSuccessIsOverlay | gocrete/internal/modules/registry.go:95-121 | a successful walk leaves the old files overridden by exactly the walk's writes, later entries winning |
| Overlay.BundleSuccessIsOverlay | gocrete/internal/modules/registry.go:78-123 | a successful `ApplyModuleTemplate` overlays the bundle's writes on the destination's files |
| Overlay.WalkTouchesOnlyItsWrites | gocrete/internal/modules/registry.go:95-121 | whether it succeeds or fails, a walk leaves every file it would not write as it was |
| Overlay.BundleTouchesOnlyItsWrites | gocrete/internal/modules/registry.go:78-123 | whether it succeeds or fails, applying a bundle leaves every file it would not write as it was |
| Overlay.WritesKeys | gocrete/internal/modules/registry.go:108-121 | the paths a walk writes are exactly the destinations of its file entries |
| Overlay.LastWriteWins | gocrete/internal/modules/registry.go:117-121 | a file entry's output is what ends up at its destination unless a later entry writes the same path |
| Overlay.WalkRunAppend | gocrete/internal/modules/registry.go:79-122 | walking a + b is walking a, then b from where a left off, if a passed |
| Overlay.FailureStopsWalk | gocrete/internal/modules/registry.go:80-82 | the first failing entry ends the walk with its error; earlier writes stay, later entries never run |
| Overlay.PassLeavesReady | gocrete/internal/modules/registry.go:97-121 | after a successful walk every entry's file and directories exist |
| Overlay.StepReplay | gocrete/internal/modules/registry.go:97-121 | on a tree that already holds an entry's file and directories, its step succeeds, creates nothing and only sets the contents |
| Overlay.ReplayWhenReady | gocrete/internal/modules/registry.go:79-122 | on a tree that holds every entry's file and directories, the walk succeeds and only overlays its writes |
| Overlay.WalkReapplyIsNoOp | gocrete/internal/modules/registry.go:79-122 | walking the same listing again with the same data succeeds and changes nothing |
| Overlay.BundleReapplyIsNoOp | gocrete/internal/modules/registry.go:78-123 | applying a bundle a second time with the same data succeeds and yields the same tree |
| Overlay.BundleReplay | gocrete/internal/modules/registry.go:78-123 | a bundle that succeeded once succeeds on any well-formed tree that already has its files and directories, and only overlays its writes |
| Overlay.LaterBundleWins | internal/engine/engine.go:68-108 | after bundle A and then bundle B, a path B writes holds B's output; any other path A writes holds A's output |
| Overlay.Visit | gocrete/internal/modules/registry.go:79-122 | the callback on a mutable filesystem has exactly the effect and outcome of `StepRun` |
| Overlay.ApplyModuleTemplate | gocrete/internal/modules/registry.go:78-123 | the walk on a mutable filesystem has exactly the effect and outcome of `BundleRun` |
| Overlay.WriteFile | gocrete/internal/modules/registry.go:139-144 | has exactly the effect and outcome of `WriteFileRun` |
| Recipes.ExtrasRun | gocrete/internal/modules/postgres.go:22-46 | successive `WriteFile` calls: on success, the files are overridden by each write in order, the later one winning; nothing is ever removed |
| Recipes.ExtrasStep | gocrete/internal/modules/postgres.go:24-27 | the first write's error ends the sequence; otherwise the rest run on what it left |
| Recipes.RecipeRun | gocrete/internal/modules/postgres.go:14-50 | a successful `Apply` overlays its bundle's writes and then its extra files on the project |
| Recipes.ExtraWritesLookup | gocrete/internal/modules/postgres.go:22-46 | an extra file that no later extra overwrites holds its own content |
| Recipes.ExtraWritesKeys | gocrete/internal/modules/postgres.go:22-46 | the paths the extras write are exactly their own paths |
| Recipes.ExtraLands | gocrete/internal/modules/openapi.go:60-77 | after a successful `Apply`, an extra file no later extra overwrites holds its fixed content, whatever the bundle wrote there |
| Recipes.ExtrasTouchOnlyTheirPaths | gocrete/internal/modules/registry.go:139-144 | whether they succeed or fail, the extra writes leave every other file as it was |
| Recipes.RecipeTouchesOnlyItsWrites | gocrete/internal/modules/postgres.go:14-50 | whether `Apply` succeeds or fails, it leaves every file outside its bundle's and its extras' writes as it was; a bundle failure is wrapped with the module's message |
| Recipes.BundleOnlyRecipe | internal/modules/mongo.go:13-21 | a module with no extra files writes exactly its bundle on success; on failure it returns the wrapped bundle error and leaves every other file as it was |
| Recipes.ExtrasPassLeavesReady | gocrete/internal/modules/registry.go:139-144 | after successful extra writes, each extra file and its directories exist |
| Recipes.ExtrasReplay | gocrete/internal/modules/registry.go:139-144 | on a tree that already holds the extras' files and directories, the extras succeed and only overlay their contents |
| Recipes.RewriteExistingFile | gocrete/internal/modules/registry.go:139-144 | `WriteFile` over an existing file whose directories exist succeeds and creates nothing |
| Recipes.RecipeReapplyIsNoOp | gocrete/internal/modules/postgres.go:14-50 | applying a module a second time with the same context succeeds and leaves the same tree |
| PostgresModule.Apply | gocrete/internal/modules/postgres.go:14-50 | the postgres `Apply` on a mutable filesystem has exactly the effect and outcome of its recipe: the `files/db/postgres` bundle, then, with goose, `migrations/.gitkeep` and `migrations/00001_initial.sql` |
| PostgresModule.GooseWritesMigrations | gocrete/internal/modules/postgres.go:22-46 | after a successful `Apply` with goose, `.gitkeep` is empty and the initial migration holds the users-table Up/Down script |
| PostgresModule.NoGooseWritesOnlyBundle | gocrete/internal/modules/postgres.go:14-22 | after a successful `Apply` without goose, exactly the bundle's files are written |
| PostgresModule.MigrationsIffGoose | gocrete/internal/modules/postgres.go:14-50 | after a successful `Apply`, the migration files are written by the module if and only if the migrations tool is goose |
| PostgresModule.GitKeepFailureSkipsMigration | gocrete/internal/modules/postgres.go:24-27 | a failed `.gitkeep` write is returned unwrapped, and the migration script is not written |
| PostgresModule.BundleFailureWritesNoMigrations | gocrete/internal/modules/postgres.go:16-19 | a bundle failure is wrapped as "failed to apply postgres template", and neither migration file is written |
| MongoModule.Apply | internal/modules/mongo.go:13-21 | the mongo `Apply` has exactly the effect and outcome of overlaying `files/db/mongo` |
| MongoModule.WritesOnlyItsBundle | internal/modules/mongo.go:13-21 | a successful `Apply` writes exactly the bundle's files, and no migrations; a failure is the wrapped bundle error and leaves every other file as it was |
| MongoModule.IgnoresOptions | internal/modules/mongo.go:13-21 | the outcome does not depend on the selection options in the context |
| DockerModule.Apply | gocrete/internal/modules/docker.go:13-21 | the docker `Apply` has exactly the effect and outcome of overlaying `files/docker` |
| DockerModule.WritesOnlyItsBundle | gocrete/internal/modules/docker.go:13-21 | a successful `Apply` writes exactly the bundle's files; a failure is the wrapped bundle error and leaves every other file as it was |
| DockerModule.IgnoresOptions | gocrete/internal/modules/docker.go:13-21 | the outcome does not depend on the selection options in the context |
| OpenAPIGenModule.SpecLayout | gocrete/internal/modules/openapi.go:24-59 | the example spec is a fixed head, the project name and a fixed tail ending the title line with " API" |
| OpenAPIGenModule.SpecTitleIdentifiesProject | gocrete/internal/modules/openapi.go:24-26 | two projects get the same example spec only when they have the same name |
| OpenAPIGenModule.Apply | gocrete/internal/modules/openapi.go:14-80 | the gen `Apply` has exactly the effect and outcome of its recipe: the `files/openapi/gen` bundle, the example spec when a spec path is given, then the Makefile |
| OpenAPIGenModule.GenWrites | gocrete/internal/modules/openapi.go:21-77 | after a successful `Apply`, the Makefile holds its fixed text whatever the bundle wrote there, and with a spec path `api/openapi.yaml` holds the example spec for the project name |
| OpenAPIGenModule.NoSpecPathNoSpecFile | gocrete/internal/modules/openapi.go:21-22 | without a spec path, `api/openapi.yaml` holds only what the bundle put there, if anything |
| OpenAPIGenModule.SpecFailureSkipsMakefile | gocrete/internal/modules/openapi.go:60-63 | a failed spec write is returned unwrapped, and the Makefile is not written |
| OpenAPIGenModule.SpecPathValueIgnored | gocrete/internal/modules/openapi.go:21-23 | the spec path only switches the example spec on: any two non-empty values give the same outcome |
| OpenAPIManualModule.Apply | gocrete/internal/modules/openapi.go:88-96 | the manual `Apply` has exactly the effect and outcome of overlaying `files/openapi/manual` |
| OpenAPIManualModule.WritesOnlyItsBundle | gocrete/internal/modules/openapi.go:88-96 | a successful `Apply` writes exactly the bundle's files; a failure is the wrapped bundle error and leaves every other file as it was |
| Modules.NamesAreDistinct | gocrete/internal/modules/openapi.go:10-12 | the five modules' `Name` results are pairwise different |
| Modules.Apply | gocrete/internal/modules/registry.go:16-19 | the interface call `m.Apply(ctx)` has exactly the effect and outcome of that module's recipe |
| Modules.Insert | gocrete/internal/modules/registry.go:62-67 | after `Register`, a lookup of (category, name) answers the new module and every other lookup is unchanged |
| Modules.BuiltinHoldsExactlyFive | gocrete/internal/modules/registry.go:43-60 | `NewRegistry` answers the five built-in (category, name) pairs with their modules and every other lookup with nil |
| Modules.BuiltinHoldsBuiltins | gocrete/internal/modules/registry.go:43-60 | `NewRegistry`'s table answers every lookup as the built-in list does |
| Modules.Registry.constructor | gocrete/internal/modules/registry.go:43-60 | `NewRegistry` performs the five registrations; every `GetModule` answers the built-in list |
| Modules.Registry.Register | gocrete/internal/modules/registry.go:62-67 | inserts or overwrites exactly one entry, creating the category when missing, and keeps every other lookup |
| Modules.Registry.GetModule | gocrete/internal/modules/registry.go:69-74 | nil exactly when the category or the name is unknown; otherwise the registered module |
| GoMod.TrimLeft | internal/engine/engine.go:303 | the result is no longer than the input and does not start with white space |
| GoMod.TrimLeftIsSuffix | internal/engine/engine.go:303 | trimming on the left keeps a suffix of the input |
| GoMod.TrimLeftCutsSpace | internal/engine/engine.go:303 | everything cut on the left is white space |
| GoMod.TrimRight | internal/engine/engine.go:303 | the result is no longer than the input and does not end in white space |
| GoMod.TrimRightIsPrefix | internal/engine/engine.go:303 | trimming on the right keeps a prefix of the input |
| GoMod.TrimRightCutsSpace | internal/engine/engine.go:303 | everything cut on the right is white space |
| GoMod.TrimSpace | internal/engine/engine.go:303 | `strings.TrimSpace` neither starts nor ends with white space |
| GoMod.TrimSpaceCutsOnlySpace | internal/engine/engine.go:303 | everything `TrimSpace` cuts before its result is white space |
| GoMod.TrimSpaceIsSlice | internal/engine/engine.go:303 | the result of `TrimSpace` is a contiguous slice of its input |
| GoMod.TrimSpaceCutsRight | internal/engine/engine.go:303 | everything `TrimSpace` cuts after its result is white space |
| GoMod.TrimSpaceIdempotent | internal/engine/engine.go:304 | trimming twice is trimming once |
| GoMod.TrimSpaceKeepsTrimmed | internal/engine/engine.go:304 | text without white space at either end is left alone by `TrimSpace` |
| GoMod.TrimPrefix | internal/engine/engine.go:304 | `strings.TrimPrefix`: when the input starts with the prefix, the prefix followed by the result is the input; otherwise the input is returned unchanged |
| GoMod.Split | internal/engine/engine.go:301 | `strings.Split` gives at least one part, no part holds the separator, and joining the parts with the separator gives the input back |
| GoMod.SplitNoSeparator | internal/engine/engine.go:301 | text without the separator splits into itself alone |
| GoMod.SplitAtFirst | internal/engine/engine.go:301 | the separator-free text before the first separator is the first part |
| GoMod.SplitIsUnique | internal/engine/engine.go:301 | splitting the join of separator-free parts gives those parts back: `Split` inverts `Join` |
| GoMod.ModulePrefixIsKeyword | internal/engine/engine.go:303 | `"module "` starts with no white space and ends in exactly one space |
| GoMod.Declared | internal/engine/engine.go:304 | what a module line declares is non-empty and has no white space at either end |
| GoMod.LineNamesPath | internal/engine/engine.go:303-304 | a line whose trimmed form starts with `"module "` declares a non-empty path |
| GoMod.TrimPrefixKeepsLast | internal/engine/engine.go:304 | cutting the prefix from a trimmed line keeps its last, non-space character |
| GoMod.TrimSpaceKeepsLast | internal/engine/engine.go:304 | text ending in a non-space character does not trim to nothing |
| GoMod.FirstDeclaring | internal/engine/engine.go:302-306 | the index of the first module line: no line before it is one, and the line at it is one |
| GoMod.DeclaredIn | internal/engine/engine.go:301-308 | not-found exactly when no line is a module line; otherwise a non-empty trimmed path |
| GoMod.ScanPassesLine | internal/engine/engine.go:302-303 | the loop may move past a line that is not a module line without skipping the first module line |
| GoMod.ScanStopsAtLine | internal/engine/engine.go:303-304 | the first module line the loop reaches is the one the scan answers with |
| GoMod.ModulePath | internal/engine/engine.go:301-308 | the module path read back is either not-found or non-empty with no white space at either end |
| GoMod.DirectiveDeclares | internal/engine/engine.go:303-304 | `"module "` followed by a trimmed path is a module line declaring exactly that path |
| GoMod.FirstLineDeclares | internal/engine/engine.go:301-306 | when the first line is `"module "` and a trimmed path, the scan returns that path whatever follows |
| GoMod.FirstLineDeclaresPath | internal/engine/engine.go:294-309 | round trip: the go.mod `go mod init` writes, `module <path>` on its first line, is read back as exactly that path |
| Engine.Validate | internal/engine/engine.go:266-292 | accepts exactly the selections whose router, database, OpenAPI mode and migrations are each in their allowed set; otherwise it reports the first invalid field in that order |
| Engine.Selected | internal/engine/engine.go:74-108 | the modules applied are the database unless "none", OpenAPI unless "none", and Docker when asked for, and always in that order |
| Engine.SelectedShape | internal/engine/engine.go:74-108 | the selection is built by the three conditional blocks, one after another |
| Engine.UseModuleSpec | internal/engine/engine.go:77-83 | a module block keeps the tree well formed |
| Engine.ApplySelected | internal/engine/engine.go:74-108 | the module blocks in order keep the tree well formed |
| Engine.Prepare | internal/engine/engine.go:42-51 | without force no file changes; with force everything at or below the project path goes first; on success the project directory exists and every file that is left has the contents it had before; force on the working directory fails |
| Engine.PostSteps | internal/engine/engine.go:243-264 | passes exactly when go mod init and go mod tidy pass, reporting the first that failed; go fmt's result is ignored |
| Engine.Finish | internal/engine/engine.go:110-116 | the tools run only after every template, and change no file in the model; the run passes exactly when the templates and the post steps do |
| Engine.GenerateSpec | internal/engine/engine.go:53-116 | generation keeps the tree well formed |
| Engine.InitSpec | internal/engine/engine.go:36-117 | invalid options fail before anything is touched, even with force; a well-formed tree stays well formed |
| Engine.ValidSelectionIsRegistered | internal/engine/engine.go:74-108 | with the built-in registry, every module a valid selection asks for is registered |
| Engine.RegisteredModulesFailOnlyInApply | internal/engine/engine.go:74-108 | when every selected module is registered, a failing module step is always a wrapped `Apply` error, never not-found |
| Engine.BuiltinInitNeverMissesModule | internal/engine/engine.go:36-117 | with the built-in registry `InitProject` never reports a missing module |
| Engine.SelectedSuccessIsOverlay | internal/engine/engine.go:74-108 | successful module steps overlay each module's writes in order, a later module winning |
| Engine.InitSuccessIsOverlay | internal/engine/engine.go:36-117 | a successful `InitProject` leaves the prepared directory's files overlaid with the base bundle, then each selected module in order |
| Engine.DefaultInitWritesOnlyBase | internal/engine/engine.go:68-116 | with no database, no OpenAPI and no Docker, a successful `InitProject` writes exactly the base bundle |
| Engine.BaseFailureAppliesNoModule | internal/engine/engine.go:68-72 | a base bundle failure is wrapped as "failed to apply base template", no module runs, and files outside the base bundle are as preparation left them |
| Engine.FailedModuleEndsRun | internal/engine/engine.go:74-108 | a failed module sequence failed at exactly one step k: every step before k succeeded, the outcome is step k's, and no later step ran |
| Engine.ModulePathOf | internal/engine/engine.go:294-309 | a missing go.mod is a wrapped read error; otherwise the answer is the scan of its text |
| Engine.Choose | internal/engine/engine.go:137-161 | the category switch fails exactly for a missing `--type`, a missing `--mode` or an unknown category, each with its own error; otherwise the module is the registry's answer for the category and its selector (the type, the mode, or "" for docker), and the context keeps the project path |
| Engine.AddSpec | internal/engine/engine.go:119-180 | a go.mod failure, a category-switch error and a nil lookup ("module not found") are each the outcome, with nothing changed; every failure except a wrapped `Apply` error leaves the tree unchanged |
| Engine.AddSuccessIsOverlay | internal/engine/engine.go:137-179 | a successful add found a module, and leaves the project's files overlaid with exactly what that module's `Apply` writes in the context the switch built |
| Engine.AddUnknownSelectorIsNotFound | internal/engine/engine.go:163-165 | with the built-in registry, a db type or OpenAPI mode naming no module fails with "module not found" and changes nothing |
| Engine.AddKnownSelectorFailsOnlyInApply | internal/engine/engine.go:137-169 | with the built-in registry and a readable go.mod, a known selector can fail only inside the module's `Apply` |
| Engine.AddedPostgresWritesOnlyItsBundle | internal/engine/engine.go:126-146 | adding postgres writes exactly its bundle rendered with only the module path and database: no migrations |
| Engine.GenSpecWithoutName | gocrete/internal/modules/openapi.go:22-63 | with a spec path and an empty project name, a successful gen `Apply` leaves at `api/openapi.yaml` the example spec for the empty name |
| Engine.AddedGenSpecHasNoProjectName | internal/engine/engine.go:126-154 | adding OpenAPI gen with a spec writes the example spec with an empty project name |
| Engine.Engine.constructor | internal/engine/engine.go:30-34 | `NewEngine` holds a fresh registry with the built-in table |
| Engine.Engine.InitProject | internal/engine/engine.go:36-117 | the new filesystem and outcome are exactly those of `InitSpec` on the old filesystem |
| Engine.Engine.Generate | internal/engine/engine.go:53-116 | the new filesystem and outcome are exactly those of `GenerateSpec` |
| Engine.Engine.UseSelected | internal/engine/engine.go:74-108 | the three module blocks have exactly the effect of `ApplySelected` over the selection |
| Engine.Engine.UseFirst | internal/engine/engine.go:74-108 | one module block, followed by the rest, has the effect of `ApplySelected` |
| Engine.Engine.UseModule | internal/engine/engine.go:77-83 | look-up-and-apply has exactly the effect of `UseModuleSpec` |
| Engine.Engine.Select | internal/engine/engine.go:137-161 | the switch returns exactly what `Choose` returns |
| Engine.Engine.AddModule | internal/engine/engine.go:119-180 | the new filesystem and outcome are exactly those of `AddSpec` |
| Engine.Engine.ApplyTemplate | internal/engine/engine.go:182-227 | `applyTemplate` has exactly the effect of `BundleRun`, the same walk as `ApplyModuleTemplate` |
| Engine.Engine.GetModulePath | internal/engine/engine.go:294-309 | the line loop returns exactly `ModulePathOf`, the first module line's path, or the not-found or read error |

## Left out

- `text/template` parsing and execution: rendering is a deterministic parameter that may fail. The model proves nothing about what a template expands to.
- File modes (0755/0644), permissions, symbolic links, disk-full and other I/O errors. A `MkdirAll`, `WriteFile` or `RemoveAll` fails only for the structural reasons in `FileTree`.
- `filepath.Join`, `filepath.Rel` and `filepath.Clean` semantics: paths are sequences of segments, so `..`, `.`, repeated slashes and absolute paths are not modelled. The empty path stands for the working directory.
- A template file named exactly `.tmpl`: Go would trim the name to a trailing slash, so the write would fail. The model writes it under an empty last segment.
- The Go tools: `go mod init`, `go mod tidy` and `go fmt` are represented only by their success or failure (`ToolResults`). The files they create or rewrite, such as go.mod and go.sum, are not modelled.
- `AddModule`'s final `go mod tidy`: its failure only prints a warning, so `AddSpec` ends with success after `Apply`.
- Errors from the template store itself, other than a missing bundle root. Reading an embedded file cannot fail for a listed entry.
- Everything printed to standard output (progress lines and the tidy warning).
- `CopyFile` in internal/engine/engine.go:311-330: nothing in the core calls it.
- The command-line layer (gocrete/cmd/gocrete/main.go, gocrete/internal/cmd/init.go and add.go, internal/cmd/root.go): flag parsing, and the check in gocrete/internal/cmd/init.go:55 that refuses any existing path without `--force` (a directory, empty or not, or a regular file). The engine itself only runs `MkdirAll` on an existing directory, and the model follows the engine.
- Byte-level details: strings are sequences of characters, and `unicode.IsSpace` is modelled over code points.
- Concurrency: gocrete is single-threaded.
- Engine.AddSpec, Engine.InitSpec, Engine.GenerateSpec, Engine.ApplySelected, Engine.UseModuleSpec: the ensures state only the early failures and well-formedness. What a successful run writes is stated by the lemmas beside them: InitSuccessIsOverlay and SelectedSuccessIsOverlay for InitProject, AddSuccessIsOverlay for AddModule. The failures of the module steps are stated by FailedModuleEndsRun and RegisteredModulesFailOnlyInApply.
- TemplateStore.WalkInLexicalOrder: relative paths are distinct, but destinations need not be. A bundle holding both `a` and `a.tmpl` writes both to `a`, and the later entry in walk order wins (Overlay.LastWriteWins).
- Engine.AddedPostgresWritesOnlyItsBundle: `add db --type postgres` leaves the migrations option empty, so postgres never writes migrations through `add`. The model follows the code.
- Engine.AddedGenSpecHasNoProjectName: `add openapi --mode gen --spec ...` leaves the project name empty, so the spec title is " API". The model follows the code.
- Bundle errors: a render error is wrapped with the template's source path. Directory and write errors from the walk carry no path. The model follows the code here too.
