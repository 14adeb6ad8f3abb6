/** The messages the compiler appends to its error list, one constructor per
    place that appends one, carrying what the message names.  The legacy
    preprocessor raises the same messages as warnings. */
module Diagnostics {
  import opened Values
  import opened Files

  /** The section a function's reference points into. */
  datatype RefKind = BucketRef | TableRef | PollRef | SendRef | StreamRef

  datatype Error =
    // Loading and conditionals
    | ResourcesUnreadable(file: Path)
    | MissingCondition(condition: string)
    // Fragment merging
    | FragmentUnreadable(entry: Path)
    | UnexpectedSections(entry: Path)
    | NoLambdaName(entry: Path)
    | DuplicateLambda(entry: Path, name: Value)
    | NoPathName(entry: Path)
    | DuplicatePath(entry: Path, path: Value)
    | DuplicateTable(entry: Path, table: Value)
    | ImportDirNotFound(dir: Path)
    // Defaults
    | StreamBothBucketForms(stream: Value)
    // Semantic validation
    | PrivateBucketPublic(bucket: Value)
    | StreamBucketUnnamed(stream: Value)
    | StreamBucketBothForms(stream: Value)
    | StreamBucketUnknown(stream: Value, bucket: Value)
    | StreamArnInvalid(stream: Value)
    | LambdaRefInvalid(kind: RefKind, lambda: Value, ref: Value)
    | LambdaPathBothAccess
    | LambdaPathNoAccess
    | LambdaPathAuthorizerUnknown(path: Value)
    | SqsQueueUnknown(path: Value)
    | RequestTemplateFileMissing(path: Value)
    | RequestTemplateBoth(path: Value)
    | ResponseTemplateFileMissing(path: Value)
    | ResponseTemplateBoth(path: Value)
    | RequestTemplateMissing(path: Value)
    | ResponseTemplateMissing(path: Value)
    | ImportNotDirectory(item: Value)
    | AuthorizerTypeCount(authorizer: Value)
    | AuthorizerFunctionUnknown(authorizer: Value)

  /** The resource graph being built and the errors gathered so far. */
  datatype State = State(graph: Entries, errors: seq<Error>)
}
