/** How `out` finds the raw message and the expanded message it reports: the
    guard that some message source is given, the precedence message >
    message_file > status, and the template lookup with its "unknown"
    fallback. Both resource variants contain this code unchanged. */
module MessageResolution {
  import opened Outcomes
  import opened ResourceData
  import opened EnvExpansion
  import opened ConcourseEnv

  /** The "params" hash of one `out` invocation, as parsed from JSON. */
  type Params = map<string, Value>

  const StatusKey := "status"
  const MessageKey := "message"
  const MessageFileKey := "message_file"
  const UnknownStatus := "unknown"
  const NoSourceError := "could not find 'status', 'message', or 'message_file'"
  /** ArgumentError messages of File.join and File.read for text holding NUL. */
  const JoinNulError := "string contains null byte"
  const PathNulError := "path name contains null byte"

  /** Ruby strings may hold NUL characters, which no file path can. */
  predicate HasNul(s: string) {
    exists i :: 0 <= i < |s| && s[i] == '\0'
  }

  /** The files `out` may read, by path, and MESSAGE_FILES_PATH, the template
      directory (its location depends on where the resource is installed). */
  datatype Disk = Disk(files: map<string, string>, messagesDir: string)

  /** `s` without its trailing run of "/". */
  function ChompSeparators(s: string): (r: string)
    ensures |r| <= |s| && s[..|r|] == r
    ensures r == [] || r[|r| - 1] != '/'
    ensures forall i :: |r| <= i < |s| ==> s[i] == '/'
  {
    if s != [] && s[|s| - 1] == '/' then ChompSeparators(s[..|s| - 1]) else s
  }

  /** File.join(dir, name): when `name` starts with "/" the separators ending
      `dir` are dropped; otherwise one "/" is inserted unless `dir` already
      ends with one. */
  function Join(dir: string, name: string): string {
    if name != [] && name[0] == '/' then ChompSeparators(dir) + name
    else if dir != [] && dir[|dir| - 1] == '/' then dir + name
    else dir + "/" + name
  }

  /** A join always ends with `name`, and is "<dir>/<name>" when neither side
      brings its own separator; a name's extra leading "/" makes no difference
      after a directory that does not end with one. */
  lemma JoinProperties(dir: string, name: string)
    ensures |Join(dir, name)| >= |name| && Join(dir, name)[|Join(dir, name)| - |name|..] == name
    ensures (dir == [] || dir[|dir| - 1] != '/') && (name == [] || name[0] != '/') ==>
      Join(dir, name) == dir + "/" + name
    ensures (dir == [] || dir[|dir| - 1] != '/') && (name == [] || name[0] != '/') ==>
      Join(dir, "/" + name) == Join(dir, name)
  {
    var j := Join(dir, name);
    if name != [] && name[0] == '/' {
      assert j == ChompSeparators(dir) + name;
    } else if dir != [] && dir[|dir| - 1] == '/' {
      assert j == dir + name;
    } else {
      assert j == (dir + "/") + name;
    }
    if dir == [] || dir[|dir| - 1] != '/' {
      assert ChompSeparators(dir) == dir;
    }
  }

  /** File.join(dir, name) as raised: ArgumentError when either part holds
      a NUL, else the joined path. */
  function JoinPath(dir: string, name: string): (r: Result<string>)
    ensures r.Failure? <==> HasNul(dir) || HasNul(name)
    ensures r.Failure? ==> r.error == ArgumentError(JoinNulError)
    ensures r.Success? ==> r.value == Join(dir, name)
  {
    if HasNul(dir) || HasNul(name) then Failure(ArgumentError(JoinNulError))
    else Success(Join(dir, name))
  }

  /** File.read(path): the contents of an existing file, ENOENT for a missing
      one, ArgumentError for a path holding NUL, and TypeError for nil or a
      boolean, which are not paths. */
  function ReadFile(disk: Disk, path: Value): (r: Result<string>)
    ensures r.Success? <==> path.Str? && !HasNul(path.s) && path.s in disk.files
    ensures r.Success? ==> r.value == disk.files[path.s]
    ensures path.Str? && HasNul(path.s) ==> r.error == ArgumentError(PathNulError)
    ensures path.Str? && !HasNul(path.s) && r.Failure? ==> r.error == FileNotFound(path.s)
    ensures !path.Str? ==> r.error == TypeError("no implicit conversion of " + Inspect(path) + " into String")
  {
    match path
    case Str(p) =>
      if HasNul(p) then Failure(ArgumentError(PathNulError))
      else if p in disk.files then Success(disk.files[p])
      else Failure(FileNotFound(p))
    case _ => Failure(TypeError("no implicit conversion of " + Inspect(path) + " into String"))
  }

  /** How Ruby names nil and the booleans in a conversion error. */
  function Inspect(v: Value): string
    requires !v.Str?
  {
    if v.Null? then "nil" else if v.b then "true" else "false"
  }

  /** File.join(MESSAGE_FILES_PATH, "#{status}.md"); the interpolation is `to_s`. */
  function TemplatePath(disk: Disk, status: Value): Result<string> {
    JoinPath(disk.messagesDir, ToS(status) + ".md")
  }

  /** The "unknown" template, read when a status has none of its own. */
  function UnknownTemplate(disk: Disk): Result<Value> {
    match TemplatePath(disk, Str(UnknownStatus))
    case Failure(e) => Failure(e)
    case Success(path) => Lift(ReadFile(disk, Str(path)))
  }

  predicate HasMessageSource(params: Params) {
    StatusKey in params || MessageKey in params || MessageFileKey in params
  }

  /** The raw message of `out`, before expansion; a `message` is passed on
      as whatever value it is. */
  function ResolveMessage(params: Params, disk: Disk): (r: Result<Value>)
    // the guard: KeyError exactly when no source key is present
    ensures r == Failure(KeyError(NoSourceError)) <==> !HasMessageSource(params)
    // precedence by key presence
    ensures MessageKey in params ==> r == Success(params[MessageKey])
    ensures MessageKey !in params && MessageFileKey in params ==>
      r == Lift(ReadFile(disk, params[MessageFileKey]))
    // status: File.join raises on NUL; else its template, or the "unknown"
    // template when it has none
    ensures MessageKey !in params && MessageFileKey !in params && StatusKey in params ==>
      match TemplatePath(disk, params[StatusKey])
      case Failure(e) => r == Failure(e)
      case Success(path) =>
        r == if path in disk.files then Success(Str(disk.files[path])) else UnknownTemplate(disk)
  {
    if !HasMessageSource(params) then
      Failure(KeyError(NoSourceError))
    else if MessageKey in params then
      Success(params[MessageKey])
    else if MessageFileKey in params then
      Lift(ReadFile(disk, params[MessageFileKey]))
    else
      match TemplatePath(disk, params[StatusKey])
      case Failure(e) => Failure(e)
      case Success(expected) =>
        if expected in disk.files then Success(Str(disk.files[expected]))
        else UnknownTemplate(disk)
  }

  /** The contents of a file read, as a String value. */
  function Lift(r: Result<string>): (v: Result<Value>)
    ensures v.Success? <==> r.Success?
    ensures v.Success? ==> v.value == Str(r.value)
    ensures v.Failure? ==> v.error == r.error
  {
    match r
    case Success(s) => Success(Str(s))
    case Failure(e) => Failure(e)
  }

  /** The message `out` reports: the raw message expanded once, by
      ConcourseEnvExpander, against the environment with BUILD_URL published. */
  function ExpandedMessage(params: Params, disk: Disk, env: Env): (r: Result<string>)
    ensures ResolveMessage(params, disk).Failure? ==> r == Failure(ResolveMessage(params, disk).error)
    ensures ResolveMessage(params, disk).Success? ==>
      r == ExpandValue(ResolveMessage(params, disk).value, WithBuildUrl(env))
  {
    match ResolveMessage(params, disk)
    case Failure(e) => Failure(e)
    case Success(raw) => ExpandValue(raw, WithBuildUrl(env))
  }

  /** The only errors are the missing source, a missing file, a path holding
      NUL, a `message_file` that is not a String and a `message` that is not
      one; a String `message` never fails, whatever else is present. */
  lemma ExpandedMessageErrors(params: Params, disk: Disk, env: Env)
    ensures var r := ExpandedMessage(params, disk, env);
      r.Failure? ==>
        || r.error == KeyError(NoSourceError)
        || r.error.FileNotFound?
        || (r.error.ArgumentError? && MessageKey !in params &&
            if MessageFileKey in params
            then params[MessageFileKey].Str? && HasNul(params[MessageFileKey].s)
            else HasNul(disk.messagesDir) || HasNul(ToS(params[StatusKey])))
        || (r.error.TypeError? && MessageKey !in params && MessageFileKey in params && !params[MessageFileKey].Str?)
        || (r.error == NoMethodError("gsub") && MessageKey in params && !params[MessageKey].Str?)
    ensures MessageKey in params && params[MessageKey].Str? ==>
      ExpandedMessage(params, disk, env) == Success(Expand(params[MessageKey].s, WithBuildUrl(env)))
  {
    var raw := ResolveMessage(params, disk);
    if raw.Success? && MessageKey !in params {
      assert raw.value.Str?;
    }
  }

  /** An unrecognised status (one without a template) resolves exactly like
      "unknown" itself, including the error when unknown.md is missing. */
  lemma StatusFallback(status: Value, disk: Disk)
    requires TemplatePath(disk, status).Success? && TemplatePath(disk, status).value !in disk.files
    ensures ResolveMessage(map[StatusKey := status], disk)
         == ResolveMessage(map[StatusKey := Str(UnknownStatus)], disk)
  {
  }

  /** File.join drops a status's leading "/": "/success" reads the template
      of "success". */
  lemma StatusLeadingSeparator(status: string, disk: Disk)
    requires disk.messagesDir == [] || disk.messagesDir[|disk.messagesDir| - 1] != '/'
    requires status == [] || status[0] != '/'
    ensures TemplatePath(disk, Str("/" + status)) == TemplatePath(disk, Str(status))
  {
    assert ("/" + status) + ".md" == "/" + (status + ".md");
    NulInConcat("/", status + ".md");
    JoinProperties(disk.messagesDir, status + ".md");
  }

  /** A status holding NUL fails in File.join instead of falling back to
      the "unknown" template. */
  lemma StatusWithNul(status: Value, disk: Disk)
    requires HasNul(ToS(status))
    ensures ResolveMessage(map[StatusKey := status], disk) == Failure(ArgumentError(JoinNulError))
  {
    NulInConcat(ToS(status), ".md");
  }

  /** `a + b` holds a NUL exactly when `a` or `b` does. */
  lemma NulInConcat(a: string, b: string)
    ensures HasNul(a + b) <==> HasNul(a) || HasNul(b)
  {
    if HasNul(a + b) {
      var i :| 0 <= i < |a + b| && (a + b)[i] == '\0';
      if i >= |a| {
        assert b[i - |a|] == '\0';
      }
    }
    if HasNul(a) {
      var i :| 0 <= i < |a| && a[i] == '\0';
      assert (a + b)[i] == '\0';
    }
    if HasNul(b) {
      var i :| 0 <= i < |b| && b[i] == '\0';
      assert (a + b)[|a| + i] == '\0';
    }
  }

  /** Keys other than the three sources do not influence the raw message. */
  lemma OtherKeysIgnored(params: Params, key: string, value: Value, disk: Disk)
    requires key != StatusKey && key != MessageKey && key != MessageFileKey
    ensures ResolveMessage(params[key := value], disk) == ResolveMessage(params, disk)
  {
  }
}
