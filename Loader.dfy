/**
 * Loading of an API workspace (loadAPIWorkspace): dispatch between an
 * OpenAPI workspace and a declarative ("fern") workspace, and, for the
 * latter, the parse -> structural validation -> package-marker pipeline
 * whose first failure is returned as the workspace's result.
 *
 * Every collaborator that does I/O or lives outside this function is a
 * field of an `Environment`: a function from the arguments the loader
 * passes it to what it returns. What those collaborators compute is not
 * modelled; the loader's own decisions are.
 */
module Loader {
  import Paths

  type RelativePath = Paths.Path
  /** An absolute path, as the list of names below the filesystem root. */
  type AbsolutePath = Paths.Path

  /** Reserved sub-directories of a workspace. */
  const OpenApiDirectory: string := "openapi"
  const DefinitionDirectory: string := "definition"
  /** The glob of extensions that file discovery is asked for. */
  const YamlExtensions: string := "{yml,yaml}"
  /** The name every OpenAPI workspace gets. */
  const OpenApiWorkspaceName: string := "api"

  // ---------------------------------------------------------------------
  // Values the loader passes along without looking inside
  // ---------------------------------------------------------------------

  datatype FileFailure = FileFailure(message: string)
  /** A failed stage reports its failures keyed by the file they concern. */
  type Failures = map<RelativePath, FileFailure>

  datatype GeneratorsConfiguration = GeneratorsConfiguration(raw: string)
  datatype DependenciesConfiguration = DependenciesConfiguration(raw: string)
  datatype OpenAPIDefinition = OpenAPIDefinition(raw: string)
  datatype FernFile = FernFile(relativeFilepath: RelativePath, fileContents: string)
  datatype ParsedFile = ParsedFile(raw: string)
  type ParsedFiles = map<RelativePath, ParsedFile>

  datatype RootApiFileSchema = RootApiFileSchema(name: string, rest: string)
  datatype RootApiFile = RootApiFile(contents: RootApiFileSchema, rawContents: string)
  datatype DefinitionFile = DefinitionFile(raw: string)
  datatype PackageMarker = PackageMarker(raw: string)
  datatype ImportedDefinition = ImportedDefinition(raw: string)

  /** What structural validation hands on when it succeeds. */
  datatype ValidatedFiles = ValidatedFiles(
    rootApiFile: RootApiFile,
    namedDefinitionFiles: map<RelativePath, DefinitionFile>)

  /** What package-marker processing hands on when it succeeds. */
  datatype ProcessedMarkers = ProcessedMarkers(
    packageMarkers: map<RelativePath, PackageMarker>,
    importedDefinitions: map<RelativePath, ImportedDefinition>)

  /** The `{ didSucceed, ... }` result of one stage. */
  datatype StageResult<T> = Succeeded(value: T) | Failed(failures: Failures)

  // ---------------------------------------------------------------------
  // The workspace and the loader's result
  // ---------------------------------------------------------------------

  datatype FernDefinition = FernDefinition(
    absoluteFilepath: AbsolutePath,
    rootApiFile: RootApiFile,
    namedDefinitionFiles: map<RelativePath, DefinitionFile>,
    packageMarkers: map<RelativePath, PackageMarker>,
    importedDefinitions: map<RelativePath, ImportedDefinition>)

  /** The two workspace kinds; the constructor is the `type` tag ("openapi" or "fern"). */
  datatype Workspace =
    | OpenAPIWorkspace(
        name: string,
        workspaceName: Paths.Option<string>,
        absoluteFilepath: AbsolutePath,
        generatorsConfiguration: GeneratorsConfiguration,
        openApiDefinition: OpenAPIDefinition)
    | FernWorkspace(
        name: string,
        absoluteFilepath: AbsolutePath,
        generatorsConfiguration: GeneratorsConfiguration,
        dependenciesConfiguration: DependenciesConfiguration,
        workspaceName: Paths.Option<string>,
        fernDefinition: FernDefinition)

  /** WorkspaceLoader.Result. */
  datatype LoadResult = Success(workspace: Workspace) | Failure(failures: Failures)

  /** The collaborators of the loader, each as a function of the arguments it is given. */
  datatype Environment = Environment(
    loadGeneratorsConfiguration: AbsolutePath -> GeneratorsConfiguration,
    doesPathExist: AbsolutePath -> bool,
    loadAndValidateOpenAPIDefinition: AbsolutePath -> OpenAPIDefinition,
    loadDependenciesConfiguration: AbsolutePath -> DependenciesConfiguration,
    listFiles: (AbsolutePath, string) -> seq<FernFile>,
    parseYamlFiles: seq<FernFile> -> StageResult<ParsedFiles>,
    validateStructureOfYamlFiles: (ParsedFiles, AbsolutePath) -> StageResult<ValidatedFiles>,
    processPackageMarkers: (DependenciesConfiguration, ValidatedFiles, string) -> StageResult<ProcessedMarkers>)

  // ---------------------------------------------------------------------
  // The loader
  // ---------------------------------------------------------------------

  function OpenApiPath(workspace: AbsolutePath): AbsolutePath {
    Paths.Join(workspace, [OpenApiDirectory])
  }

  function DefinitionPath(workspace: AbsolutePath): AbsolutePath {
    Paths.Join(workspace, [DefinitionDirectory])
  }

  /** The stage results of the declarative pipeline, each computed from the one before. */
  function ParseStage(env: Environment, workspace: AbsolutePath): StageResult<ParsedFiles> {
    env.parseYamlFiles(env.listFiles(DefinitionPath(workspace), YamlExtensions))
  }

  function ValidateStage(env: Environment, workspace: AbsolutePath, parsed: ParsedFiles): StageResult<ValidatedFiles> {
    env.validateStructureOfYamlFiles(parsed, DefinitionPath(workspace))
  }

  function MarkersStage(env: Environment, dependenciesConfiguration: DependenciesConfiguration, cliVersion: string, validated: ValidatedFiles): StageResult<ProcessedMarkers> {
    env.processPackageMarkers(dependenciesConfiguration, validated, cliVersion)
  }

  function LoadAPIWorkspace(
    env: Environment,
    absolutePathToWorkspace: AbsolutePath,
    cliVersion: string,
    workspaceName: Paths.Option<string>): (r: LoadResult)
    // Whatever is returned carries the caller's inputs and the generators configuration.
    ensures r.Success? ==>
      && r.workspace.absoluteFilepath == absolutePathToWorkspace
      && r.workspace.workspaceName == workspaceName
      && r.workspace.generatorsConfiguration == env.loadGeneratorsConfiguration(absolutePathToWorkspace)
    // The kind follows the check for the OpenAPI path, and only the declarative kind can fail.
    ensures r.Success? ==> (r.workspace.OpenAPIWorkspace? <==> env.doesPathExist(OpenApiPath(absolutePathToWorkspace)))
    ensures r.Failure? ==> !env.doesPathExist(OpenApiPath(absolutePathToWorkspace))
  {
    var generatorsConfiguration := env.loadGeneratorsConfiguration(absolutePathToWorkspace);
    var absolutePathToOpenAPIDefinition := OpenApiPath(absolutePathToWorkspace);
    if env.doesPathExist(absolutePathToOpenAPIDefinition) then
      Success(OpenAPIWorkspace(
        OpenApiWorkspaceName,
        workspaceName,
        absolutePathToWorkspace,
        generatorsConfiguration,
        env.loadAndValidateOpenAPIDefinition(absolutePathToOpenAPIDefinition)))
    else
      var absolutePathToDefinition := DefinitionPath(absolutePathToWorkspace);
      var dependenciesConfiguration := env.loadDependenciesConfiguration(absolutePathToWorkspace);
      match ParseStage(env, absolutePathToWorkspace)
      case Failed(parseFailures) => Failure(parseFailures)
      case Succeeded(files) =>
        match ValidateStage(env, absolutePathToWorkspace, files)
        case Failed(structureFailures) => Failure(structureFailures)
        case Succeeded(validated) =>
          match MarkersStage(env, dependenciesConfiguration, cliVersion, validated)
          case Failed(markerFailures) => Failure(markerFailures)
          case Succeeded(markers) =>
            Success(FernWorkspace(
              validated.rootApiFile.contents.name,
              absolutePathToWorkspace,
              generatorsConfiguration,
              dependenciesConfiguration,
              workspaceName,
              FernDefinition(
                absolutePathToDefinition,
                validated.rootApiFile,
                validated.namedDefinitionFiles,
                markers.packageMarkers,
                markers.importedDefinitions)))
  }

  // ---------------------------------------------------------------------
  // Properties of the loader
  // ---------------------------------------------------------------------

  /** The reserved directory of a workspace whose path is plain names is that path plus one name. */
  lemma ReservedDirectoryBelowWorkspace(workspace: AbsolutePath, directory: string)
    requires forall i :: 0 <= i < |workspace| ==> Paths.IsName(workspace[i])
    requires Paths.IsName(directory)
    ensures Paths.Join(workspace, [directory]) == workspace + [directory]
  {
    Paths.CollapseCanonical(workspace + [directory]);
  }

  /** An existing `openapi` path gives an OpenAPI workspace named "api"; this branch never fails. */
  lemma OpenApiBranchSucceeds(env: Environment, workspace: AbsolutePath, cliVersion: string, workspaceName: Paths.Option<string>)
    requires env.doesPathExist(OpenApiPath(workspace))
    ensures var r := LoadAPIWorkspace(env, workspace, cliVersion, workspaceName);
      && r.Success?
      && r.workspace.OpenAPIWorkspace?
      && r.workspace.name == OpenApiWorkspaceName
      && r.workspace.openApiDefinition == env.loadAndValidateOpenAPIDefinition(OpenApiPath(workspace))
  {
  }

  /**
   * In the OpenAPI branch nothing of the declarative pipeline runs: two
   * environments that agree on the generators configuration, the directory
   * check and the OpenAPI loader give the same result, whatever their
   * dependency loader, file listing, parser, validator and marker processor do.
   */
  lemma OpenApiBranchRunsNoPipeline(e1: Environment, e2: Environment, workspace: AbsolutePath, cliVersion: string, workspaceName: Paths.Option<string>)
    requires e1.doesPathExist(OpenApiPath(workspace)) && e2.doesPathExist(OpenApiPath(workspace))
    requires e1.loadGeneratorsConfiguration(workspace) == e2.loadGeneratorsConfiguration(workspace)
    requires e1.loadAndValidateOpenAPIDefinition(OpenApiPath(workspace)) == e2.loadAndValidateOpenAPIDefinition(OpenApiPath(workspace))
    ensures LoadAPIWorkspace(e1, workspace, cliVersion, workspaceName) == LoadAPIWorkspace(e2, workspace, cliVersion, workspaceName)
  {
  }

  /** A parse failure is returned as it is. */
  lemma ParseFailureReturned(env: Environment, workspace: AbsolutePath, cliVersion: string, workspaceName: Paths.Option<string>)
    requires !env.doesPathExist(OpenApiPath(workspace))
    requires ParseStage(env, workspace).Failed?
    ensures LoadAPIWorkspace(env, workspace, cliVersion, workspaceName) == Failure(ParseStage(env, workspace).failures)
  {
  }

  /**
   * After a parse failure neither structural validation nor marker processing
   * runs: the result depends on nothing but the parse failure.
   */
  lemma ParseFailureStopsPipeline(e1: Environment, e2: Environment, workspace: AbsolutePath, cliVersion: string, workspaceName: Paths.Option<string>)
    requires !e1.doesPathExist(OpenApiPath(workspace)) && !e2.doesPathExist(OpenApiPath(workspace))
    requires ParseStage(e1, workspace).Failed?
    requires ParseStage(e1, workspace) == ParseStage(e2, workspace)
    ensures LoadAPIWorkspace(e1, workspace, cliVersion, workspaceName) == LoadAPIWorkspace(e2, workspace, cliVersion, workspaceName)
  {
  }

  /** A structural-validation failure is returned as it is. */
  lemma ValidationFailureReturned(env: Environment, workspace: AbsolutePath, cliVersion: string, workspaceName: Paths.Option<string>)
    requires !env.doesPathExist(OpenApiPath(workspace))
    requires ParseStage(env, workspace).Succeeded?
    requires ValidateStage(env, workspace, ParseStage(env, workspace).value).Failed?
    ensures LoadAPIWorkspace(env, workspace, cliVersion, workspaceName)
         == Failure(ValidateStage(env, workspace, ParseStage(env, workspace).value).failures)
  {
  }

  /** After a structural-validation failure marker processing does not run. */
  lemma ValidationFailureStopsPipeline(e1: Environment, e2: Environment, workspace: AbsolutePath, cliVersion: string, workspaceName: Paths.Option<string>)
    requires !e1.doesPathExist(OpenApiPath(workspace)) && !e2.doesPathExist(OpenApiPath(workspace))
    requires ParseStage(e1, workspace).Succeeded?
    requires ParseStage(e1, workspace) == ParseStage(e2, workspace)
    requires ValidateStage(e1, workspace, ParseStage(e1, workspace).value).Failed?
    requires ValidateStage(e1, workspace, ParseStage(e1, workspace).value)
          == ValidateStage(e2, workspace, ParseStage(e1, workspace).value)
    ensures LoadAPIWorkspace(e1, workspace, cliVersion, workspaceName) == LoadAPIWorkspace(e2, workspace, cliVersion, workspaceName)
  {
  }

  /** A package-marker failure is returned as it is. */
  lemma MarkerFailureReturned(env: Environment, workspace: AbsolutePath, cliVersion: string, workspaceName: Paths.Option<string>)
    requires !env.doesPathExist(OpenApiPath(workspace))
    requires ParseStage(env, workspace).Succeeded?
    requires ValidateStage(env, workspace, ParseStage(env, workspace).value).Succeeded?
    requires MarkersStage(env, env.loadDependenciesConfiguration(workspace), cliVersion, ValidateStage(env, workspace, ParseStage(env, workspace).value).value).Failed?
    ensures LoadAPIWorkspace(env, workspace, cliVersion, workspaceName)
         == Failure(MarkersStage(env, env.loadDependenciesConfiguration(workspace), cliVersion, ValidateStage(env, workspace, ParseStage(env, workspace).value).value).failures)
  {
  }

  /** The load fails exactly when the workspace is declarative and one of its three stages fails. */
  lemma LoadFailsIffStageFails(env: Environment, workspace: AbsolutePath, cliVersion: string, workspaceName: Paths.Option<string>)
    ensures LoadAPIWorkspace(env, workspace, cliVersion, workspaceName).Failure?
        <==> && !env.doesPathExist(OpenApiPath(workspace))
             && var parsed := ParseStage(env, workspace);
                || parsed.Failed?
                || var validated := ValidateStage(env, workspace, parsed.value);
                     || validated.Failed?
                     || MarkersStage(env, env.loadDependenciesConfiguration(workspace), cliVersion, validated.value).Failed?
  {
  }

  /**
   * A declarative workspace that passes every stage is named after its root
   * API file, and carries the validated files and the processed markers
   * unchanged.
   */
  lemma FernWorkspaceAssembled(env: Environment, workspace: AbsolutePath, cliVersion: string, workspaceName: Paths.Option<string>)
    requires !env.doesPathExist(OpenApiPath(workspace))
    requires ParseStage(env, workspace).Succeeded?
    requires ValidateStage(env, workspace, ParseStage(env, workspace).value).Succeeded?
    requires MarkersStage(env, env.loadDependenciesConfiguration(workspace), cliVersion, ValidateStage(env, workspace, ParseStage(env, workspace).value).value).Succeeded?
    ensures var validated := ValidateStage(env, workspace, ParseStage(env, workspace).value).value;
      var markers := MarkersStage(env, env.loadDependenciesConfiguration(workspace), cliVersion, validated).value;
      var r := LoadAPIWorkspace(env, workspace, cliVersion, workspaceName);
      && r.Success?
      && r.workspace.FernWorkspace?
      && r.workspace.name == validated.rootApiFile.contents.name
      && r.workspace.dependenciesConfiguration == env.loadDependenciesConfiguration(workspace)
      && r.workspace.fernDefinition == FernDefinition(
           DefinitionPath(workspace),
           validated.rootApiFile,
           validated.namedDefinitionFiles,
           markers.packageMarkers,
           markers.importedDefinitions)
  {
  }
}
