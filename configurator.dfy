/** The TypeScript example suite's configurator: it parses the suite arguments from
    JSON and refuses blank image names. JSON parsing is an oracle. */
module Configurators {
  import opened Wrappers
  import opened Strings

  datatype ExampleTestsuiteArgs = ExampleTestsuiteArgs(apiServiceImage: string, datastoreServiceImage: string)

  datatype ExampleTestsuite = ExampleTestsuite(apiServiceImage: string, datastoreServiceImage: string)

  datatype ConfiguratorError = JsonParseFailed(message: string) | ApiServiceImageEmpty | DatastoreServiceImageEmpty

  /** `validateArgs`: an image name that trims to "" is refused, the API image checked
      first. */
  function ValidateArgs(args: ExampleTestsuiteArgs): (r: Result<(), ConfiguratorError>)
    ensures r.Ok? <==> !IsBlank(args.apiServiceImage) && !IsBlank(args.datastoreServiceImage)
    ensures IsBlank(args.apiServiceImage) ==> r == Err(ApiServiceImageEmpty)
    ensures !IsBlank(args.apiServiceImage) && IsBlank(args.datastoreServiceImage) ==> r == Err(DatastoreServiceImageEmpty)
  {
    TrimEmptyIffBlank(args.apiServiceImage);
    TrimEmptyIffBlank(args.datastoreServiceImage);
    if Trim(args.apiServiceImage) == "" then Err(ApiServiceImageEmpty)
    else if Trim(args.datastoreServiceImage) == "" then Err(DatastoreServiceImageEmpty)
    else Ok(())
  }

  /** `setLogLevel` reports no error of its own. */
  function SetLogLevel(logLevelStr: string): (r: Result<(), ConfiguratorError>)
    ensures r.Ok?
  {
    Ok(())
  }

  /** `parseParamsAndCreateSuite`, given how the JSON parser reads the parameters: a
      parse error is passed on, then the arguments are validated, and the suite gets
      both image names from them. */
  function ParseParamsAndCreateSuite(paramsJsonStr: string, jsonParse: string -> Result<ExampleTestsuiteArgs, string>)
    : (r: Result<ExampleTestsuite, ConfiguratorError>)
    ensures r.Ok? <==>
      (jsonParse(paramsJsonStr).Ok?
       && !IsBlank(jsonParse(paramsJsonStr).value.apiServiceImage) && !IsBlank(jsonParse(paramsJsonStr).value.datastoreServiceImage))
    ensures jsonParse(paramsJsonStr).Err? ==> r == Err(JsonParseFailed(jsonParse(paramsJsonStr).error))
    ensures r.Ok? ==>
      (r.value.apiServiceImage == jsonParse(paramsJsonStr).value.apiServiceImage
       && r.value.datastoreServiceImage == jsonParse(paramsJsonStr).value.datastoreServiceImage)
  {
    match jsonParse(paramsJsonStr)
    case Err(e) => Err(JsonParseFailed(e))
    case Ok(args) =>
      match ValidateArgs(args)
      case Err(e) => Err(e)
      case Ok(_) => Ok(ExampleTestsuite(args.apiServiceImage, args.datastoreServiceImage))
  }

  /** An image name that is all whitespace, such as "  ", is refused although it is not
      empty. */
  lemma BlankImageRefused()
    ensures ValidateArgs(ExampleTestsuiteArgs("  ", "datastore")) == Err(ApiServiceImageEmpty)
    ensures ValidateArgs(ExampleTestsuiteArgs("api", "\t")) == Err(DatastoreServiceImageEmpty)
    ensures ValidateArgs(ExampleTestsuiteArgs(" api ", "datastore")).Ok?
  {
    assert !IsJsWhitespace(" api "[1]);
    assert !IsJsWhitespace("datastore"[0]);
    assert !IsJsWhitespace("api"[0]);
  }
}
