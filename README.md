# Workspace loading and import-path resolution

A model of two pieces of the API-definition workspace loader:

- **Import-path resolution** (`getResolvedPathOfImportedFile`): a definition
  file names another file by a relative import path, and the referenced file is
  `join(dirname(referencedIn), importPath)`. `dirname` and `join` come from a
  utility package and are assumed to behave like POSIX `path.dirname` and
  `path.join`. The model in
  `Paths.dfy` takes a path as its list of segments. `Dirname` drops the last
  segment, and a top-level file gives `.`. `Join` concatenates the two lists
  and normalises them as `path.normalize` does on a relative path: empty
  segments and `.` are dropped, a `..` cancels the segment before it unless
  that one is a `..`, and a path with nothing left is `.`. To give
  normalisation an independent meaning, `Walk` follows a path segment by
  segment from a directory of the tree. Normalising never changes where a walk
  ends.
- **Workspace loading** (`loadAPIWorkspace`): when an `openapi` path exists
  in the workspace (a directory, or any file of that name), the result is an
  OpenAPI workspace named `api`.
  Otherwise the YAML files of the `definition` directory are parsed, checked
  for structure, and their package markers processed. The first stage that
  fails decides the result, and its failures are returned unchanged. When all
  three succeed, a declarative ("fern") workspace is assembled from their
  payloads. In `Loader.dfy` every collaborator the loader calls is a field of
  an `Environment`, a function of the arguments it is given. These are the
  configuration loaders, the path-existence check, the OpenAPI loader, file listing
  and the three stages. "A stage does not run" is stated as non-interference:
  two environments that differ only in that stage give the same result.

An import that climbs above the root of the definition tree is not rejected:
`ResolveEscapeStartsWithParent` shows that it resolves to a path that starts
with `..`.

## Model

| member | source | states |
|---|---|---|
| `Paths.Dirname` | packages/cli/generation/ir-generator/src/utils/getResolvedPathOfImportedFile.ts:10 | `dirname` of a relative path removes exactly its last segment; a path of one segment (a top-level file) has directory `.` |
| `Paths.Collapse` | packages/cli/generation/ir-generator/src/utils/getResolvedPathOfImportedFile.ts:10 | the normalisation inside `join` yields a path with no `.` or empty segment and no `..` after a name |
| `Paths.Normalize` | packages/cli/generation/ir-generator/src/utils/getResolvedPathOfImportedFile.ts:10 | a normalised path is `.` exactly when nothing is left after collapsing, and is otherwise in normal form |
| `Paths.Join` | packages/cli/generation/ir-generator/src/utils/getResolvedPathOfImportedFile.ts:10 | joining concatenates the two segment lists and normalises them; the result is `.` alone or a non-empty normal form |
| `Paths.Resolve` | packages/cli/generation/ir-generator/src/utils/getResolvedPathOfImportedFile.ts:3-11 | the resolved import path is always normalised: `.` alone, or segments with no `.` and no `..` after a name |
| `Paths.NormalizeIdempotent` | packages/cli/generation/ir-generator/src/utils/getResolvedPathOfImportedFile.ts:10 | normalising an already normalised path changes nothing |
| `Paths.CollapseCanonical` | packages/cli/generation/ir-generator/src/utils/getResolvedPathOfImportedFile.ts:10 | a path already in normal form is left as it is by the normalisation of `join` |
| `Paths.PushAllAppend` | packages/cli/generation/ir-generator/src/utils/getResolvedPathOfImportedFile.ts:10 | normalising `a` followed by `b` is normalising `a`, then continuing with the segments of `b` |
| `Paths.NormalizePreservesWalk` | packages/cli/generation/ir-generator/src/utils/getResolvedPathOfImportedFile.ts:10 | from any directory, walking the normalised path ends where walking the original path ends, or both climb above the root |
| `Paths.ResolveDenotesJoinedWalk` | packages/cli/generation/ir-generator/src/utils/getResolvedPathOfImportedFile.ts:10 | the resolved path denotes exactly the file reached by going to the directory of `referencedIn` and following `importPath` |
| `Paths.ResolveIgnoresFileName` | packages/cli/generation/ir-generator/src/utils/getResolvedPathOfImportedFile.ts:10 | two files in the same directory resolve the same import path to the same result |
| `Paths.ResolveFromTopLevel` | packages/cli/generation/ir-generator/src/utils/getResolvedPathOfImportedFile.ts:10 | a top-level `referencedIn` has directory `.`, so the result is the normalised import path itself |
| `Paths.ResolveWithoutParentExtendsDirectory` | packages/cli/generation/ir-generator/src/utils/getResolvedPathOfImportedFile.ts:10 | an import without `..` gives the normalised directory of `referencedIn` followed by the import's own names, so that directory is a prefix of the result |
| `Paths.ResolveWithoutParentKeepsDirectory` | packages/cli/generation/ir-generator/src/utils/getResolvedPathOfImportedFile.ts:10 | when the directory of `referencedIn` is already normal, it is itself a prefix of the result of an import without `..` |
| `Paths.ResolveLeadingParents` | packages/cli/generation/ir-generator/src/utils/getResolvedPathOfImportedFile.ts:10 | each of `k` leading `..` of the import removes exactly one trailing directory name of `referencedIn`, while such names remain |
| `Paths.ResolveKeepsFileName` | packages/cli/generation/ir-generator/src/utils/getResolvedPathOfImportedFile.ts:10 | when the import's last segment is a name, the result ends with that name |
| `Paths.EscapesIffLeadingParent` | packages/cli/generation/ir-generator/src/utils/getResolvedPathOfImportedFile.ts:10 | walked from the root, a path climbs above it if and only if its normal form starts with `..` |
| `Paths.ResolveEscapeStartsWithParent` | packages/cli/generation/ir-generator/src/utils/getResolvedPathOfImportedFile.ts:10 | an import climbing above the root is not rejected; it resolves to a path that starts with `..`, and only such imports do |
| `Loader.LoadAPIWorkspace` | packages/cli/workspace-loader/src/loadAPIWorkspace.ts:13-90 | any workspace returned carries the caller's path and workspace name and the generators configuration loaded before dispatch; its kind is OpenAPI exactly when the `openapi` path exists; only the declarative kind can fail |
| `Loader.ReservedDirectoryBelowWorkspace` | packages/cli/workspace-loader/src/loadAPIWorkspace.ts:26 | joining a reserved directory name onto a workspace path made of names appends that name |
| `Loader.OpenApiBranchSucceeds` | packages/cli/workspace-loader/src/loadAPIWorkspace.ts:29-41 | an existing `openapi` path gives a successful OpenAPI workspace named `api` holding the loaded OpenAPI definition |
| `Loader.OpenApiBranchRunsNoPipeline` | packages/cli/workspace-loader/src/loadAPIWorkspace.ts:29-46 | in the OpenAPI branch the result depends on nothing but the generators configuration and the OpenAPI loader: dependency loading, file listing, parsing, validation and marker processing do not run |
| `Loader.ParseFailureReturned` | packages/cli/workspace-loader/src/loadAPIWorkspace.ts:49-52 | a parse failure is the result, with its failures unchanged |
| `Loader.ParseFailureStopsPipeline` | packages/cli/workspace-loader/src/loadAPIWorkspace.ts:49-52 | after a parse failure the result depends on nothing else: validation and marker processing do not run |
| `Loader.ValidationFailureReturned` | packages/cli/workspace-loader/src/loadAPIWorkspace.ts:54-60 | a structural-validation failure is the result, with its failures unchanged |
| `Loader.ValidationFailureStopsPipeline` | packages/cli/workspace-loader/src/loadAPIWorkspace.ts:54-60 | after a structural-validation failure marker processing does not run |
| `Loader.MarkerFailureReturned` | packages/cli/workspace-loader/src/loadAPIWorkspace.ts:62-70 | a package-marker failure is the result, with its failures unchanged |
| `Loader.LoadFailsIffStageFails` | packages/cli/workspace-loader/src/loadAPIWorkspace.ts:29-70 | the load fails if and only if there is no `openapi` path and parsing, validation of the parsed files or marker processing of the validated files fails |
| `Loader.FernWorkspaceAssembled` | packages/cli/workspace-loader/src/loadAPIWorkspace.ts:72-89 | after three successful stages the result is a fern workspace named after the root API file, holding the root and named files from validation, the markers and imported definitions from marker processing, the dependency configuration and the definition directory path |

## Left out

- Paths: a path is its list of segments. Separators, a trailing separator (kept by `path.join`) and absolute paths are not modelled. `Dirname` does not strip trailing separators the way `path.dirname` does.
- Paths: that `dirname` and `join` behave like Node's POSIX `path.dirname` and `path.join` is an assumption. The utility package that provides them is not part of this model.
- Paths: no error is raised for an import that escapes the root, because the code raises none; `ResolveEscapeStartsWithParent` states what is returned instead.
- Paths: re-expressing a resolved path relative to the importing file (`path.relative`) is not modelled, because the code never computes a relative path.
- Loader: the collaborators are not modelled, only the values they return. These are `doesPathExist`, `listFiles`, `parseYamlFiles`, `validateStructureOfYamlFiles`, `processPackageMarkers`, `loadAndValidateOpenAPIDefinition` and the generators and dependencies configuration loaders. All are file I/O or live in files not part of this model.
- Loader: cycle detection, marker inheritance and the sorting of files are not in the modelled code, so they are not modelled.
- Loader: the task context (logging and `failAndThrow`) is not modelled. Exceptions thrown by the configuration loaders or the OpenAPI loader are not modelled either: the code does not catch them, and they never become a `didSucceed: false` result.
- Loader: the values `openapi` and `definition` of `OPENAPI_DIRECTORY` and `DEFINITION_DIRECTORY` are assumed. The package that defines them is not part of this model.
- Loader: an absolute path is its list of names below the filesystem root. Joining a reserved directory onto it uses the relative `Join`, which agrees with `path.join` for any workspace path made of names (`ReservedDirectoryBelowWorkspace`).
- Loader: the payloads that the loader passes along without looking inside are stand-in records. These are the configurations, the parsed files, the definition files, the package markers and the imported definitions.
- The awaits are not modelled, and neither is the order in which collaborators run. The loader's result depends only on what they return.
