/** Values shared by every part of the engine: errors, outcomes, the user's capability
    selection, the rendering data and the context threaded through one run. */
module Common {
  import opened Paths

  datatype Option<+T> = None | Some(value: T)

  /** The errors the engine can return. `Wrapped` is Go's `fmt.Errorf("<context>: %w", err)`. */
  datatype Error =
    | InvalidOption(field: string, value: string, allowed: string)
    | NotADirectory(path: Path)          // os.MkdirAll or os.RemoveAll met a regular file on the way
    | IsADirectory(path: Path)           // os.WriteFile aimed at a directory
    | NoSuchFile(path: Path)             // a missing file, or a missing parent directory
    | RemoveRefused(path: Path)          // os.RemoveAll of the working directory
    | BundleNotFound(bundle: Path)       // fs.WalkDir on a root the template store lacks
    | RenderFailed(source: Path, reason: string)
    | ModuleNotFound(message: string)
    | MissingFlag(message: string)
    | UnknownModule(name: string)
    | ModulePathNotFound
    | ToolFailed(command: string)
    | Wrapped(context: string, cause: Error)

  /** Go's `error` result: nil or an error. */
  datatype Outcome = Pass | Fail(error: Error)

  datatype Result<+T> = Ok(value: T) | Err(error: Error)

  /** A value in the rendering data (Go's map[string]interface{} holds strings and booleans). */
  datatype Value = Str(s: string) | Flag(b: bool)

  type Data = map<string, Value>

  /** The result of text/template: rendered text, or a parse/execution error. */
  datatype Rendered = Rendered(text: string) | TemplateError(cause: string)

  /** text/template's Parse-then-Execute, left uninterpreted: any total function of
      (template text, data). Being a function, it is deterministic. */
  type Renderer = (string, Data) -> Rendered

  /** modules.InitOptions: the capability selection. */
  datatype InitOptions = InitOptions(
    projectName: string,
    modulePath: string,
    router: string,
    database: string,
    openAPI: string,
    specPath: string,
    docker: bool,
    migrations: string,
    force: bool)

  /** modules.Context: where to write, the options, and the data every template sees. */
  datatype Context = Context(projectPath: Path, options: InitOptions, templateData: Data)
}
