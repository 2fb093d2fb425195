/**
 * The error taxonomy of the loader: a closed table from error code to
 * message builder, base class and flavour ("plain" errors are instances of
 * the base class itself, "node-style" errors are instances of a subclass
 * whose `code` and `name` are accessor properties), the message builders,
 * and the bounded `truncInspect`.
 *
 * JavaScript values passed to the builders are modelled by `Arg`. The host
 * functions `inspect`, `getModuleURL`, `toStringLiteral` and the string
 * conversion of numbers and objects are not part of this model; they are
 * the uninterpreted fields of `Host`.
 */
module Errors {
  import opened Wrappers

  // ------------------------------------------------------------------------
  // Codes, builders, base classes

  datatype Code =
    | ErrExportMissing
    | ErrExportStarConflict
    | ErrInvalidEsmFileExtension
    | ErrInvalidEsmMode
    | ErrUnknownEsmOption
    | ErrInvalidArgType
    | ErrInvalidArgValue
    | ErrInvalidProtocol
    | ErrModuleResolutionLegacy
    | ErrRequireEsm
    | ErrUnknownFileExtension
    | ModuleNotFound

  /** The code as the string the `errors` table is keyed by. */
  function CodeName(c: Code): string {
    match c
    case ErrExportMissing => "ERR_EXPORT_MISSING"
    case ErrExportStarConflict => "ERR_EXPORT_STAR_CONFLICT"
    case ErrInvalidEsmFileExtension => "ERR_INVALID_ESM_FILE_EXTENSION"
    case ErrInvalidEsmMode => "ERR_INVALID_ESM_MODE"
    case ErrUnknownEsmOption => "ERR_UNKNOWN_ESM_OPTION"
    case ErrInvalidArgType => "ERR_INVALID_ARG_TYPE"
    case ErrInvalidArgValue => "ERR_INVALID_ARG_VALUE"
    case ErrInvalidProtocol => "ERR_INVALID_PROTOCOL"
    case ErrModuleResolutionLegacy => "ERR_MODULE_RESOLUTION_LEGACY"
    case ErrRequireEsm => "ERR_REQUIRE_ESM"
    case ErrUnknownFileExtension => "ERR_UNKNOWN_FILE_EXTENSION"
    case ModuleNotFound => "MODULE_NOT_FOUND"
  }

  /** The code a table key stands for, if any. */
  function ParseCode(s: string): (r: Option<Code>)
    ensures r.Some? ==> CodeName(r.value) == s
  {
    if s == "ERR_EXPORT_MISSING" then Some(ErrExportMissing)
    else if s == "ERR_EXPORT_STAR_CONFLICT" then Some(ErrExportStarConflict)
    else if s == "ERR_INVALID_ESM_FILE_EXTENSION" then Some(ErrInvalidEsmFileExtension)
    else if s == "ERR_INVALID_ESM_MODE" then Some(ErrInvalidEsmMode)
    else if s == "ERR_UNKNOWN_ESM_OPTION" then Some(ErrUnknownEsmOption)
    else if s == "ERR_INVALID_ARG_TYPE" then Some(ErrInvalidArgType)
    else if s == "ERR_INVALID_ARG_VALUE" then Some(ErrInvalidArgValue)
    else if s == "ERR_INVALID_PROTOCOL" then Some(ErrInvalidProtocol)
    else if s == "ERR_MODULE_RESOLUTION_LEGACY" then Some(ErrModuleResolutionLegacy)
    else if s == "ERR_REQUIRE_ESM" then Some(ErrRequireEsm)
    else if s == "ERR_UNKNOWN_FILE_EXTENSION" then Some(ErrUnknownFileExtension)
    else if s == "MODULE_NOT_FOUND" then Some(ModuleNotFound)
    else None
  }

  /** The message handlers, one per code. */
  datatype Builder =
    | ExportMissing
    | ExportStarConflict
    | InvalidExtension
    | InvalidPkgMode
    | UnknownPkgOption
    | InvalidArgType
    | InvalidArgValue
    | InvalidProtocol
    | ModuleResolutionLegacy
    | RequireEsm
    | UnknownFileExtension
    | MissingCjs

  /** The host's error constructors the taxonomy builds on. */
  datatype Base = Error | SyntaxError | TypeError {
    /** `Base.prototype.name`. */
    function Name(): string {
      match this
      case Error => "Error"
      case SyntaxError => "SyntaxError"
      case TypeError => "TypeError"
    }
  }

  datatype Flavour = Plain | NodeStyle

  /** What `init` registers for a code. */
  datatype Registration = Registration(builder: Builder, base: Base, flavour: Flavour)

  /** The registration table, read off the list of `addError` and
      `addNodeError` calls. */
  function Table(c: Code): (r: Registration)
    // the export errors are SyntaxErrors, the argument-type error a TypeError, the rest plain Errors
    ensures r.base == SyntaxError <==> c == ErrExportMissing || c == ErrExportStarConflict
    ensures r.base == TypeError <==> c == ErrInvalidArgType
  {
    match c
    case ErrExportMissing => Registration(ExportMissing, SyntaxError, Plain)
    case ErrExportStarConflict => Registration(ExportStarConflict, SyntaxError, Plain)
    case ErrInvalidEsmFileExtension => Registration(InvalidExtension, Error, Plain)
    case ErrInvalidEsmMode => Registration(InvalidPkgMode, Error, Plain)
    case ErrUnknownEsmOption => Registration(UnknownPkgOption, Error, Plain)
    case ErrInvalidArgType => Registration(InvalidArgType, TypeError, NodeStyle)
    case ErrInvalidArgValue => Registration(InvalidArgValue, Error, NodeStyle)
    case ErrInvalidProtocol => Registration(InvalidProtocol, Error, NodeStyle)
    case ErrModuleResolutionLegacy => Registration(ModuleResolutionLegacy, Error, NodeStyle)
    case ErrRequireEsm => Registration(RequireEsm, Error, NodeStyle)
    case ErrUnknownFileExtension => Registration(UnknownFileExtension, Error, NodeStyle)
    case ModuleNotFound => Registration(MissingCjs, Error, NodeStyle)
  }

  /** Every code, in registration order. */
  const AllCodes: seq<Code> := [
    ErrExportMissing, ErrExportStarConflict, ErrInvalidEsmFileExtension,
    ErrInvalidEsmMode, ErrUnknownEsmOption, ErrInvalidArgType, ErrInvalidArgValue,
    ErrInvalidProtocol, ErrModuleResolutionLegacy, ErrRequireEsm,
    ErrUnknownFileExtension, ModuleNotFound]

  /** The codes of the five `addError` calls. */
  const PlainSet: set<Code> := {ErrExportMissing, ErrExportStarConflict, ErrInvalidEsmFileExtension,
                                ErrInvalidEsmMode, ErrUnknownEsmOption}

  /** The codes of the seven `addNodeError` calls. */
  const NodeStyleSet: set<Code> := {ErrInvalidArgType, ErrInvalidArgValue, ErrInvalidProtocol,
                                    ErrModuleResolutionLegacy, ErrRequireEsm, ErrUnknownFileExtension, ModuleNotFound}

  function CodesOf(f: Flavour): set<Code> {
    set c | c in AllCodes && Table(c).flavour == f
  }

  // ------------------------------------------------------------------------
  // Arguments and the host

  /** A JavaScript value handed to a message builder. Values whose text is
      not modelled carry only an identity. */
  datatype Arg =
    | Undefined
    | Null
    | Boolean(b: bool)
    | Number(n: nat)
    | BigInt(n: nat)
    | Str(s: string)
    | Symbol(n: nat)
    | Object(n: nat)
    | Function(n: nat)

  /** The host functions the builders call: `inspect`, `getModuleURL`,
      `toStringLiteral(_, "'")`, and `String(v)` for numbers and objects. */
  datatype Host = Host(
    inspect: Arg -> string,
    moduleURL: Arg -> string,
    quote: Arg -> string,
    show: Arg -> string)

  /** The i-th argument; a missing argument reads as `undefined`. */
  function ArgAt(args: seq<Arg>, i: nat): (r: Arg)
    ensures i >= |args| ==> r == Undefined
    ensures i < |args| ==> r == args[i]
  {
    if i < |args| then args[i] else Undefined
  }

  /** String conversion by `+` on a string: `None` is the TypeError the
      host throws for a symbol. */
  function Text(v: Arg, host: Host): (r: Option<string>)
    ensures r.None? <==> v.Symbol?
    ensures v.Str? ==> r == Some(v.s)
  {
    match v
    case Undefined => Some("undefined")
    case Null => Some("null")
    case Boolean(b) => Some(if b then "true" else "false")
    case Str(s) => Some(s)
    case Symbol(_) => None
    case _ => Some(host.show(v))
  }

  /** `typeof v`. */
  function TypeOf(v: Arg): string {
    match v
    case Undefined => "undefined"
    case Null => "object"
    case Boolean(_) => "boolean"
    case Number(_) => "number"
    case BigInt(_) => "bigint"
    case Str(_) => "string"
    case Symbol(_) => "symbol"
    case Object(_) => "object"
    case Function(_) => "function"
  }

  /** The type word `invalidArgType` reports: `null` is told apart from
      other objects. */
  function ReceivedType(v: Arg): (r: string)
    ensures r == "null" <==> v.Null?
    ensures !v.Null? ==> r == TypeOf(v)
  {
    if v.Null? then "null" else TypeOf(v)
  }

  // ------------------------------------------------------------------------
  // truncInspect

  const InspectLimit: nat := 128

  /** Cuts a string longer than 128 characters to its first 128 followed
      by "...". */
  function Truncate(s: string): (r: string)
    ensures |r| <= InspectLimit + 3
    ensures |s| <= InspectLimit ==> r == s
    ensures |s| > InspectLimit ==> && |r| == InspectLimit + 3
                                   && r[..InspectLimit] == s[..InspectLimit]
                                   && r[InspectLimit..] == "..."
  {
    if |s| > InspectLimit then s[..InspectLimit] + "..." else s
  }

  function TruncInspect(v: Arg, host: Host): (r: string)
    ensures |r| <= InspectLimit + 3
  {
    Truncate(host.inspect(v))
  }

  // ------------------------------------------------------------------------
  // Message builders. `None` means the builder throws while converting a
  // symbol argument to a string.

  predicate StartsWith(s: string, p: string) {
    |p| <= |s| && s[..|p|] == p
  }

  predicate EndsWith(s: string, t: string) {
    |t| <= |s| && s[|s| - |t|..] == t
  }

  lemma Joined(head: string, tail: string)
    ensures StartsWith(head + tail, head) && EndsWith(head + tail, tail)
  {
  }

  lemma Framed(head: string, middle: string, tail: string)
    ensures StartsWith(head + middle + tail, head) && EndsWith(head + middle + tail, tail)
  {
    Joined(head, middle);
    Joined(head + middle, tail);
    assert (head + middle + tail)[..|head|] == (head + middle)[..|head|];
  }

  function ExportMissingMessage(args: seq<Arg>, host: Host): (r: Option<string>)
    ensures r.None? <==> ArgAt(args, 1).Symbol?
    ensures r.Some? ==> StartsWith(r.value, "ES Module " + host.quote(Str(host.moduleURL(ArgAt(args, 0)))))
    ensures ArgAt(args, 1).Str? ==> r.Some? && EndsWith(r.value, "export named '" + ArgAt(args, 1).s + "'")
  {
    var name := Text(ArgAt(args, 1), host);
    if name.None? then None
    else
      var head := "ES Module " + host.quote(Str(host.moduleURL(ArgAt(args, 0))));
      var tail := "export named '" + name.value + "'";
      Framed(head, " does not provide an ", tail);
      Some(head + " does not provide an " + tail)
  }

  function ExportStarConflictMessage(args: seq<Arg>, host: Host): (r: Option<string>)
    ensures r.None? <==> ArgAt(args, 1).Symbol?
    ensures r.Some? ==> StartsWith(r.value, "ES Module " + host.quote(Str(host.moduleURL(ArgAt(args, 0)))))
    ensures ArgAt(args, 1).Str? ==> r.Some? && EndsWith(r.value, "for name '" + ArgAt(args, 1).s + "'")
  {
    var name := Text(ArgAt(args, 1), host);
    if name.None? then None
    else
      var head := "ES Module " + host.quote(Str(host.moduleURL(ArgAt(args, 0))));
      var tail := "for name '" + name.value + "'";
      Framed(head, " contains conflicting star exports ", tail);
      Some(head + " contains conflicting star exports " + tail)
  }

  function InvalidArgTypeMessage(args: seq<Arg>, host: Host): (r: Option<string>)
    ensures r.None? <==> ArgAt(args, 0).Symbol? || ArgAt(args, 1).Symbol?
    ensures ArgAt(args, 0).Str? && r.Some? ==> StartsWith(r.value, "The '" + ArgAt(args, 0).s + "' argument must be ")
    ensures |args| > 2 && r.Some? ==> EndsWith(r.value, ". Received type " + ReceivedType(args[2]))
  {
    var argName := Text(ArgAt(args, 0), host);
    var expected := Text(ArgAt(args, 1), host);
    if argName.None? || expected.None? then None
    else
      var head := "The '" + argName.value + "' argument must be ";
      if |args| > 2 then
        var tail := ". Received type " + ReceivedType(args[2]);
        Framed(head, expected.value, tail);
        Some(head + expected.value + tail)
      else
        Joined(head, expected.value);
        Some(head + expected.value)
  }

  function InvalidArgValueMessage(args: seq<Arg>, host: Host): (r: Option<string>)
    ensures r.None? <==> ArgAt(args, 0).Symbol? || ArgAt(args, 2).Symbol?
    ensures ArgAt(args, 0).Str? && r.Some? ==> StartsWith(r.value, "The argument '" + ArgAt(args, 0).s + "' ")
    ensures r.Some? ==> EndsWith(r.value, ". Received " + TruncInspect(ArgAt(args, 1), host))
  {
    var argName := Text(ArgAt(args, 0), host);
    // a default parameter applies to a missing and to an explicit undefined argument
    var reason := if ArgAt(args, 2).Undefined? then Some("is invalid") else Text(ArgAt(args, 2), host);
    if argName.None? || reason.None? then None
    else
      var head := "The argument '" + argName.value + "' ";
      var tail := ". Received " + TruncInspect(ArgAt(args, 1), host);
      Framed(head, reason.value, tail);
      Some(head + reason.value + tail)
  }

  function InvalidExtensionMessage(args: seq<Arg>, host: Host): (r: Option<string>)
    ensures r.Some?
    ensures StartsWith(r.value, "ES Module " + host.quote(Str(host.moduleURL(ArgAt(args, 0)))))
    ensures EndsWith(r.value, " cannot be loaded from .mjs files")
  {
    var head := "ES Module " + host.quote(Str(host.moduleURL(ArgAt(args, 0))));
    Joined(head, " cannot be loaded from .mjs files");
    Some(head + " cannot be loaded from .mjs files")
  }

  function InvalidPkgModeMessage(args: seq<Arg>, host: Host): (r: Option<string>)
    ensures r.Some?
    ensures StartsWith(r.value, "The ESM option 'mode' is invalid")
    ensures EndsWith(r.value, TruncInspect(ArgAt(args, 0), host))
  {
    Framed("The ESM option 'mode' is invalid", ". Received ", TruncInspect(ArgAt(args, 0), host));
    Some("The ESM option 'mode' is invalid" + ". Received " + TruncInspect(ArgAt(args, 0), host))
  }

  function InvalidProtocolMessage(args: seq<Arg>, host: Host): (r: Option<string>)
    ensures r.None? <==> ArgAt(args, 0).Symbol? || ArgAt(args, 1).Symbol?
    ensures ArgAt(args, 0).Str? && r.Some? ==> StartsWith(r.value, "Protocol '" + ArgAt(args, 0).s + "' not supported")
    ensures ArgAt(args, 1).Str? && r.Some? ==> EndsWith(r.value, "Expected '" + ArgAt(args, 1).s + "'")
  {
    var protocol := Text(ArgAt(args, 0), host);
    var expected := Text(ArgAt(args, 1), host);
    if protocol.None? || expected.None? then None
    else
      var head := "Protocol '" + protocol.value + "' not supported";
      var tail := "Expected '" + expected.value + "'";
      Framed(head, ". ", tail);
      Some(head + ". " + tail)
  }

  function MissingCjsMessage(args: seq<Arg>, host: Host): (r: Option<string>)
    ensures r.Some?
    ensures StartsWith(r.value, "Cannot find module ")
    ensures EndsWith(r.value, host.quote(ArgAt(args, 0)))
  {
    Joined("Cannot find module ", host.quote(ArgAt(args, 0)));
    Some("Cannot find module " + host.quote(ArgAt(args, 0)))
  }

  function ModuleResolutionLegacyMessage(args: seq<Arg>, host: Host): (r: Option<string>)
    ensures r.None? <==> ArgAt(args, 0).Symbol? || ArgAt(args, 1).Symbol? || ArgAt(args, 2).Symbol?
    ensures ArgAt(args, 0).Str? && r.Some? ==> StartsWith(r.value, ArgAt(args, 0).s + " not found by import in ")
    ensures ArgAt(args, 2).Str? && r.Some? ==> EndsWith(r.value, "would have found it at " + ArgAt(args, 2).s)
  {
    var id := Text(ArgAt(args, 0), host);
    var fromPath := Text(ArgAt(args, 1), host);
    var foundPath := Text(ArgAt(args, 2), host);
    if id.None? || fromPath.None? || foundPath.None? then None
    else
      var head := id.value + " not found by import in ";
      var middle := fromPath.value + ". Legacy behavior in require() ";
      var tail := "would have found it at " + foundPath.value;
      Framed(head, middle, tail);
      Some(head + middle + tail)
  }

  function RequireEsmMessage(args: seq<Arg>, host: Host): (r: Option<string>)
    ensures r.Some?
    ensures StartsWith(r.value, "Must use import to load ES Module: ")
    ensures EndsWith(r.value, host.moduleURL(ArgAt(args, 0)))
  {
    Joined("Must use import to load ES Module: ", host.moduleURL(ArgAt(args, 0)));
    Some("Must use import to load ES Module: " + host.moduleURL(ArgAt(args, 0)))
  }

  function UnknownFileExtensionMessage(args: seq<Arg>, host: Host): (r: Option<string>)
    ensures r.None? <==> ArgAt(args, 0).Symbol?
    ensures r.Some? ==> StartsWith(r.value, "Unknown file extension: ")
    ensures ArgAt(args, 0).Str? ==> r.Some? && EndsWith(r.value, ArgAt(args, 0).s)
  {
    var filename := Text(ArgAt(args, 0), host);
    if filename.None? then None
    else
      Joined("Unknown file extension: ", filename.value);
      Some("Unknown file extension: " + filename.value)
  }

  function UnknownPkgOptionMessage(args: seq<Arg>, host: Host): (r: Option<string>)
    ensures r.None? <==> ArgAt(args, 0).Symbol?
    ensures r.Some? ==> StartsWith(r.value, "Unknown ESM option: ")
    ensures ArgAt(args, 0).Str? ==> r.Some? && EndsWith(r.value, ArgAt(args, 0).s)
  {
    var optionName := Text(ArgAt(args, 0), host);
    if optionName.None? then None
    else
      Joined("Unknown ESM option: ", optionName.value);
      Some("Unknown ESM option: " + optionName.value)
  }

  /** `messages[code](...args)` for the handler registered under the code. */
  function Message(b: Builder, args: seq<Arg>, host: Host): (r: Option<string>)
    // a builder that converts no argument with `+` never throws
    ensures ConcatenatedPositions(b, args) == {} ==> r.Some?
  {
    match b
    case ExportMissing => ExportMissingMessage(args, host)
    case ExportStarConflict => ExportStarConflictMessage(args, host)
    case InvalidExtension => InvalidExtensionMessage(args, host)
    case InvalidPkgMode => InvalidPkgModeMessage(args, host)
    case UnknownPkgOption => UnknownPkgOptionMessage(args, host)
    case InvalidArgType => InvalidArgTypeMessage(args, host)
    case InvalidArgValue => InvalidArgValueMessage(args, host)
    case InvalidProtocol => InvalidProtocolMessage(args, host)
    case ModuleResolutionLegacy => ModuleResolutionLegacyMessage(args, host)
    case RequireEsm => RequireEsmMessage(args, host)
    case UnknownFileExtension => UnknownFileExtensionMessage(args, host)
    case MissingCjs => MissingCjsMessage(args, host)
  }

  /** The argument positions a builder converts to a string with `+`
      (the reference description of when a builder throws). The reason of
      `invalidArgValue` is converted only when it is not `undefined`. */
  function ConcatenatedPositions(b: Builder, args: seq<Arg>): set<nat> {
    match b
    case ExportMissing => {1}
    case ExportStarConflict => {1}
    case InvalidArgType => {0, 1}
    case InvalidArgValue => if ArgAt(args, 2).Undefined? then {0} else {0, 2}
    case InvalidProtocol => {0, 1}
    case ModuleResolutionLegacy => {0, 1, 2}
    case UnknownFileExtension => {0}
    case UnknownPkgOption => {0}
    case _ => {}
  }

  // ------------------------------------------------------------------------
  // The registry filled by init

  /** What `errors[code]` holds: a constructor for the code, of the code's
      base and flavour. The message handler is looked up in `messages` when
      the constructor runs. */
  datatype ErrorClass = ErrorClass(code: Code, base: Base, flavour: Flavour)

  class Registry {
    var errors: map<Code, ErrorClass>
    var messages: map<Code, Builder>

    /** `init`: registers the five plain and the seven node-style errors. */
    constructor ()
      ensures forall c :: c in errors && c in messages
      ensures forall c :: errors[c] == ErrorClass(c, Table(c).base, Table(c).flavour)
      ensures forall c :: messages[c] == Table(c).builder
    {
      errors := map[];
      messages := map[];
      new;
      AddError(ErrExportMissing, ExportMissing, SyntaxError);
      AddError(ErrExportStarConflict, ExportStarConflict, SyntaxError);
      AddError(ErrInvalidEsmFileExtension, InvalidExtension, Error);
      AddError(ErrInvalidEsmMode, InvalidPkgMode, Error);
      AddError(ErrUnknownEsmOption, UnknownPkgOption, Error);

      AddNodeError(ErrInvalidArgType, InvalidArgType, TypeError);
      AddNodeError(ErrInvalidArgValue, InvalidArgValue, Error);
      AddNodeError(ErrInvalidProtocol, InvalidProtocol, Error);
      AddNodeError(ErrModuleResolutionLegacy, ModuleResolutionLegacy, Error);
      AddNodeError(ErrRequireEsm, RequireEsm, Error);
      AddNodeError(ErrUnknownFileExtension, UnknownFileExtension, Error);
      AddNodeError(ModuleNotFound, MissingCjs, Error);
      assert errors == RegisteredClasses() && messages == RegisteredHandlers();
      RegisteredAgreesWithTable();
    }

    /** `errors[key]`: the class registered under a string key, if any. */
    function Lookup(key: string): (r: Option<ErrorClass>)
      reads this
      ensures r.Some? ==> ParseCode(key).Some? && ParseCode(key).value in errors && r.value == errors[ParseCode(key).value]
      ensures r.None? ==> ParseCode(key).None? || ParseCode(key).value !in errors
    {
      var c := ParseCode(key);
      if c.Some? && c.value in errors then Some(errors[c.value]) else None
    }

    /** `addError`: registers a plain error class and its handler. */
    method AddError(code: Code, handler: Builder, super: Base)
      modifies this
      ensures errors == old(errors)[code := ErrorClass(code, super, Plain)]
      ensures messages == old(messages)[code := handler]
    {
      errors := errors[code := ErrorClass(code, super, Plain)];
      messages := messages[code := handler];
    }

    /** `addNodeError`: registers a node-style error class and its handler. */
    method AddNodeError(code: Code, handler: Builder, super: Base)
      modifies this
      ensures errors == old(errors)[code := ErrorClass(code, super, NodeStyle)]
      ensures messages == old(messages)[code := handler]
    {
      errors := errors[code := ErrorClass(code, super, NodeStyle)];
      messages := messages[code := handler];
    }
  }

  /** The tables `init` leaves behind, entry by entry in call order. */
  function RegisteredClasses(): map<Code, ErrorClass> {
    map[
      ErrExportMissing := ErrorClass(ErrExportMissing, SyntaxError, Plain),
      ErrExportStarConflict := ErrorClass(ErrExportStarConflict, SyntaxError, Plain),
      ErrInvalidEsmFileExtension := ErrorClass(ErrInvalidEsmFileExtension, Error, Plain),
      ErrInvalidEsmMode := ErrorClass(ErrInvalidEsmMode, Error, Plain),
      ErrUnknownEsmOption := ErrorClass(ErrUnknownEsmOption, Error, Plain),
      ErrInvalidArgType := ErrorClass(ErrInvalidArgType, TypeError, NodeStyle),
      ErrInvalidArgValue := ErrorClass(ErrInvalidArgValue, Error, NodeStyle),
      ErrInvalidProtocol := ErrorClass(ErrInvalidProtocol, Error, NodeStyle),
      ErrModuleResolutionLegacy := ErrorClass(ErrModuleResolutionLegacy, Error, NodeStyle),
      ErrRequireEsm := ErrorClass(ErrRequireEsm, Error, NodeStyle),
      ErrUnknownFileExtension := ErrorClass(ErrUnknownFileExtension, Error, NodeStyle),
      ModuleNotFound := ErrorClass(ModuleNotFound, Error, NodeStyle)]
  }

  function RegisteredHandlers(): map<Code, Builder> {
    map[
      ErrExportMissing := ExportMissing, ErrExportStarConflict := ExportStarConflict,
      ErrInvalidEsmFileExtension := InvalidExtension, ErrInvalidEsmMode := InvalidPkgMode,
      ErrUnknownEsmOption := UnknownPkgOption, ErrInvalidArgType := InvalidArgType,
      ErrInvalidArgValue := InvalidArgValue, ErrInvalidProtocol := InvalidProtocol,
      ErrModuleResolutionLegacy := ModuleResolutionLegacy, ErrRequireEsm := RequireEsm,
      ErrUnknownFileExtension := UnknownFileExtension, ModuleNotFound := MissingCjs]
  }

  /** The registered tables cover every code, each with the builder, base
      and flavour of the code's row. */
  lemma RegisteredAgreesWithTable()
    ensures forall c :: c in RegisteredClasses() && c in RegisteredHandlers()
    ensures forall c :: RegisteredClasses()[c] == ErrorClass(c, Table(c).base, Table(c).flavour)
    ensures forall c :: RegisteredHandlers()[c] == Table(c).builder
  {
    forall c ensures && c in RegisteredClasses() && c in RegisteredHandlers()
                     && RegisteredClasses()[c] == ErrorClass(c, Table(c).base, Table(c).flavour)
                     && RegisteredHandlers()[c] == Table(c).builder
    {
      match c
      case ErrExportMissing =>
      case ErrExportStarConflict =>
      case ErrInvalidEsmFileExtension =>
      case ErrInvalidEsmMode =>
      case ErrUnknownEsmOption =>
      case ErrInvalidArgType =>
      case ErrInvalidArgValue =>
      case ErrInvalidProtocol =>
      case ErrModuleResolutionLegacy =>
      case ErrRequireEsm =>
      case ErrUnknownFileExtension =>
      case ModuleNotFound =>
    }
  }

  // ------------------------------------------------------------------------
  // Plain errors

  /** An instance of a host error constructor. */
  datatype PlainError = PlainError(base: Base, message: string)

  /** Calling the constructor `createErrorClass` returns: a new instance of
      the base, whose message is the registered handler's message for the
      arguments. It throws only when the handler throws (`None`). */
  function BuiltinError(cls: ErrorClass, messages: map<Code, Builder>, args: seq<Arg>, host: Host): (r: Option<PlainError>)
    requires cls.code in messages
    ensures r.None? <==> Message(messages[cls.code], args, host).None?
    ensures r.Some? ==> && r.value.base == cls.base
                        && Some(r.value.message) == Message(messages[cls.code], args, host)
  {
    var m := Message(messages[cls.code], args, host);
    if m.None? then None else Some(PlainError(cls.base, m.value))
  }

  // ------------------------------------------------------------------------
  // Node-style errors

  /** An instance of the class `createNodeErrorClass` returns. `code` and
      `name` are accessors on the class until they are assigned; assigning
      either defines a writable, enumerable own data property, modelled by
      `ownCode` and `ownName`. */
  class NodeError {
    const code: Code
    const base: Base
    const message: string
    var ownCode: Option<Arg>
    var ownName: Option<Arg>

    /** The constructor body after `super(message)`: `MODULE_NOT_FOUND`
        assigns the code and the base name through the setters. */
    constructor (code: Code, base: Base, message: string)
      ensures this.code == code && this.base == base && this.message == message
      ensures code == ModuleNotFound ==> ownCode == Some(Str(CodeName(code))) && ownName == Some(Str(base.Name()))
      ensures code != ModuleNotFound ==> ownCode.None? && ownName.None?
    {
      this.code := code;
      this.base := base;
      this.message := message;
      ownCode := None;
      ownName := None;
      new;
      if code == ModuleNotFound {
        SetCode(Str(CodeName(code)));
        SetName(Str(base.Name()));
      }
    }

    /** Reading `code`: the own value once assigned, else the registered code. */
    function CodeProperty(): (r: Arg)
      reads this
      ensures ownCode.None? ==> r == Str(CodeName(code))
      ensures ownCode.Some? ==> r == ownCode.value
    {
      if ownCode.Some? then ownCode.value else Str(CodeName(code))
    }

    /** Reading `name`: the own value once assigned, else the base name
        followed by the code in brackets. */
    function NameProperty(): (r: Arg)
      reads this
      ensures ownName.None? ==> r == Str(base.Name() + " [" + CodeName(code) + "]")
      ensures ownName.Some? ==> r == ownName.value
    {
      if ownName.Some? then ownName.value else Str(base.Name() + " [" + CodeName(code) + "]")
    }

    /** The own enumerable keys: only properties defined by the setters. */
    function EnumerableOwnKeys(): (r: set<string>)
      reads this
      ensures "code" in r <==> ownCode.Some?
      ensures "name" in r <==> ownName.Some?
      ensures r <= {"code", "name"}
    {
      (if ownCode.Some? then {"code"} else {}) + (if ownName.Some? then {"name"} else {})
    }

    /** Assigning `code`. */
    method SetCode(value: Arg)
      modifies this
      ensures ownCode == Some(value) && ownName == old(ownName)
      ensures CodeProperty() == value && NameProperty() == old(NameProperty())
    {
      ownCode := Some(value);
    }

    /** Assigning `name`. */
    method SetName(value: Arg)
      modifies this
      ensures ownName == Some(value) && ownCode == old(ownCode)
      ensures NameProperty() == value && CodeProperty() == old(CodeProperty())
    {
      ownName := Some(value);
    }
  }

  /** `new errors[code](...args)` for a node-style class: `None` when the
      handler throws, else a new error carrying the handler's message. */
  method NewNodeError(cls: ErrorClass, messages: map<Code, Builder>, args: seq<Arg>, host: Host)
      returns (r: Option<NodeError>)
    requires cls.flavour == NodeStyle && cls.code in messages
    ensures r.None? <==> Message(messages[cls.code], args, host).None?
    ensures r.Some? ==> && fresh(r.value)
                        && Some(r.value.message) == Message(messages[cls.code], args, host)
                        && r.value.code == cls.code && r.value.base == cls.base
    ensures r.Some? && cls.code == ModuleNotFound ==>
              r.value.CodeProperty() == Str("MODULE_NOT_FOUND") && r.value.NameProperty() == Str(cls.base.Name())
    ensures r.Some? && cls.code != ModuleNotFound ==>
              && r.value.CodeProperty() == Str(CodeName(cls.code))
              && r.value.NameProperty() == Str(cls.base.Name() + " [" + CodeName(cls.code) + "]")
              && r.value.EnumerableOwnKeys() == {}
  {
    var m := Message(messages[cls.code], args, host);
    if m.None? {
      return None;
    }
    var e := new NodeError(cls.code, cls.base, m.value);
    return Some(e);
  }

  // ------------------------------------------------------------------------
  // Properties

  /** Table keys and codes correspond one to one. */
  lemma CodeNamesRoundTrip(c: Code, s: string)
    ensures ParseCode(CodeName(c)) == Some(c)
    ensures ParseCode(s) == Some(c) <==> CodeName(c) == s
  {
    match c
    case ErrExportMissing => assert ParseCode("ERR_EXPORT_MISSING") == Some(ErrExportMissing);
    case ErrExportStarConflict => assert ParseCode("ERR_EXPORT_STAR_CONFLICT") == Some(ErrExportStarConflict);
    case ErrInvalidEsmFileExtension => assert ParseCode("ERR_INVALID_ESM_FILE_EXTENSION") == Some(ErrInvalidEsmFileExtension);
    case ErrInvalidEsmMode => assert ParseCode("ERR_INVALID_ESM_MODE") == Some(ErrInvalidEsmMode);
    case ErrUnknownEsmOption => assert ParseCode("ERR_UNKNOWN_ESM_OPTION") == Some(ErrUnknownEsmOption);
    case ErrInvalidArgType => assert ParseCode("ERR_INVALID_ARG_TYPE") == Some(ErrInvalidArgType);
    case ErrInvalidArgValue => assert ParseCode("ERR_INVALID_ARG_VALUE") == Some(ErrInvalidArgValue);
    case ErrInvalidProtocol => assert ParseCode("ERR_INVALID_PROTOCOL") == Some(ErrInvalidProtocol);
    case ErrModuleResolutionLegacy => assert ParseCode("ERR_MODULE_RESOLUTION_LEGACY") == Some(ErrModuleResolutionLegacy);
    case ErrRequireEsm => assert ParseCode("ERR_REQUIRE_ESM") == Some(ErrRequireEsm);
    case ErrUnknownFileExtension => assert ParseCode("ERR_UNKNOWN_FILE_EXTENSION") == Some(ErrUnknownFileExtension);
    case ModuleNotFound => assert ParseCode("MODULE_NOT_FOUND") == Some(ModuleNotFound);
  }

  /** Every code is registered, once. */
  lemma AllCodesListed(c: Code)
    ensures c in AllCodes
  {
    match c
    case ErrExportMissing => assert AllCodes[0] == c;
    case ErrExportStarConflict => assert AllCodes[1] == c;
    case ErrInvalidEsmFileExtension => assert AllCodes[2] == c;
    case ErrInvalidEsmMode => assert AllCodes[3] == c;
    case ErrUnknownEsmOption => assert AllCodes[4] == c;
    case ErrInvalidArgType => assert AllCodes[5] == c;
    case ErrInvalidArgValue => assert AllCodes[6] == c;
    case ErrInvalidProtocol => assert AllCodes[7] == c;
    case ErrModuleResolutionLegacy => assert AllCodes[8] == c;
    case ErrRequireEsm => assert AllCodes[9] == c;
    case ErrUnknownFileExtension => assert AllCodes[10] == c;
    case ModuleNotFound => assert AllCodes[11] == c;
  }

  lemma InCodesOf(c: Code, f: Flavour)
    ensures c in CodesOf(f) <==> Table(c).flavour == f
  {
    AllCodesListed(c);
  }

  lemma PlainCount()
    ensures |{ErrExportMissing, ErrExportStarConflict, ErrInvalidEsmFileExtension,
              ErrInvalidEsmMode, ErrUnknownEsmOption}| == 5
  {
    var s: set<Code> := {};
    s := s + {ErrExportMissing};
    s := s + {ErrExportStarConflict};
    assert |s| == 2;
    s := s + {ErrInvalidEsmFileExtension};
    s := s + {ErrInvalidEsmMode};
    assert |s| == 4;
    s := s + {ErrUnknownEsmOption};
    assert |s| == 5;
  }

  lemma NodeStyleCount()
    ensures |{ErrInvalidArgType, ErrInvalidArgValue, ErrInvalidProtocol,
              ErrModuleResolutionLegacy, ErrRequireEsm, ErrUnknownFileExtension, ModuleNotFound}| == 7
  {
    var s: set<Code> := {};
    s := s + {ErrInvalidArgType};
    s := s + {ErrInvalidArgValue};
    assert |s| == 2;
    s := s + {ErrInvalidProtocol};
    s := s + {ErrModuleResolutionLegacy};
    assert |s| == 4;
    s := s + {ErrRequireEsm};
    assert |s| == 5;
    s := s + {ErrUnknownFileExtension};
    assert |s| == 6;
    s := s + {ModuleNotFound};
    assert |s| == 7;
  }

  /** The plain codes, as registered. */
  lemma PlainCodes()
    ensures CodesOf(Plain) == PlainSet
  {
    forall c ensures c in CodesOf(Plain) <==> c in PlainSet {
      PlainMember(c);
    }
  }

  /** The node-style codes, as registered. */
  lemma NodeStyleCodes()
    ensures CodesOf(NodeStyle) == NodeStyleSet
  {
    forall c ensures c in CodesOf(NodeStyle) <==> c in NodeStyleSet {
      NodeStyleMember(c);
    }
  }

  lemma PlainMember(c: Code)
    ensures c in CodesOf(Plain) <==> c in PlainSet
  {
    InCodesOf(c, Plain);
    match c
    case ErrExportMissing =>
    case ErrExportStarConflict =>
    case ErrInvalidEsmFileExtension =>
    case ErrInvalidEsmMode =>
    case ErrUnknownEsmOption =>
    case ErrInvalidArgType =>
    case ErrInvalidArgValue =>
    case ErrInvalidProtocol =>
    case ErrModuleResolutionLegacy =>
    case ErrRequireEsm =>
    case ErrUnknownFileExtension =>
    case ModuleNotFound =>
  }

  lemma NodeStyleMember(c: Code)
    ensures c in CodesOf(NodeStyle) <==> c in NodeStyleSet
  {
    InCodesOf(c, NodeStyle);
    match c
    case ErrExportMissing =>
    case ErrExportStarConflict =>
    case ErrInvalidEsmFileExtension =>
    case ErrInvalidEsmMode =>
    case ErrUnknownEsmOption =>
    case ErrInvalidArgType =>
    case ErrInvalidArgValue =>
    case ErrInvalidProtocol =>
    case ErrModuleResolutionLegacy =>
    case ErrRequireEsm =>
    case ErrUnknownFileExtension =>
    case ModuleNotFound =>
  }

  /** The taxonomy: twelve codes, five plain and seven node-style, each
      code of exactly one flavour. */
  lemma TaxonomyShape()
    ensures |AllCodes| == 12
    ensures |CodesOf(Plain)| == 5 && |CodesOf(NodeStyle)| == 7
    ensures CodesOf(Plain) !! CodesOf(NodeStyle)
    ensures forall c :: c in CodesOf(Plain) + CodesOf(NodeStyle)
  {
    PlainCodes();
    NodeStyleCodes();
    PlainCount();
    NodeStyleCount();
    forall c ensures c in CodesOf(Plain) + CodesOf(NodeStyle) {
      InCodesOf(c, Table(c).flavour);
    }
  }

  /** Each code has its own message handler. */
  lemma BuildersAreDistinct(c: Code, d: Code)
    ensures Table(c).builder == Table(d).builder ==> c == d
  {
  }

  /** `truncInspect` is idempotent: a truncated text is not cut again. */
  lemma TruncateIdempotent(s: string)
    ensures Truncate(Truncate(s)) == Truncate(s)
  {
    if |s| > InspectLimit {
      assert Truncate(s)[..InspectLimit] == s[..InspectLimit];
    }
  }

  /** A builder throws exactly when a position it converts with `+` holds a
      symbol. */
  lemma MessageThrowsOnlyOnSymbols(b: Builder, args: seq<Arg>, host: Host)
    ensures Message(b, args, host).None? <==>
            exists i :: i in ConcatenatedPositions(b, args) && ArgAt(args, i).Symbol?
  {
    match b
    case ExportMissing =>
      assert ArgAt(args, 1).Symbol? ==> 1 in ConcatenatedPositions(b, args);
    case ExportStarConflict =>
      assert ArgAt(args, 1).Symbol? ==> 1 in ConcatenatedPositions(b, args);
    case InvalidArgType =>
      assert ArgAt(args, 0).Symbol? ==> 0 in ConcatenatedPositions(b, args);
      assert ArgAt(args, 1).Symbol? ==> 1 in ConcatenatedPositions(b, args);
    case InvalidArgValue =>
      assert ArgAt(args, 0).Symbol? ==> 0 in ConcatenatedPositions(b, args);
      assert ArgAt(args, 2).Symbol? ==> 2 in ConcatenatedPositions(b, args);
    case InvalidProtocol =>
      assert ArgAt(args, 0).Symbol? ==> 0 in ConcatenatedPositions(b, args);
      assert ArgAt(args, 1).Symbol? ==> 1 in ConcatenatedPositions(b, args);
    case ModuleResolutionLegacy =>
      assert ArgAt(args, 0).Symbol? ==> 0 in ConcatenatedPositions(b, args);
      assert ArgAt(args, 1).Symbol? ==> 1 in ConcatenatedPositions(b, args);
      assert ArgAt(args, 2).Symbol? ==> 2 in ConcatenatedPositions(b, args);
    case UnknownFileExtension =>
      assert ArgAt(args, 0).Symbol? ==> 0 in ConcatenatedPositions(b, args);
    case UnknownPkgOption =>
      assert ArgAt(args, 0).Symbol? ==> 0 in ConcatenatedPositions(b, args);
    case _ =>
  }

  /** `invalidArgType` reports the received type exactly when a third
      argument is passed, even an explicit `undefined`; the report extends
      the two-argument message. */
  lemma InvalidArgTypeReportsThirdArgument(args: seq<Arg>, host: Host)
    requires |args| >= 2
    ensures |args| == 2 ==> InvalidArgTypeMessage(args, host) == InvalidArgTypeMessage(args[..2], host)
    ensures |args| > 2 && InvalidArgTypeMessage(args[..2], host).Some? ==>
              InvalidArgTypeMessage(args, host) ==
              Some(InvalidArgTypeMessage(args[..2], host).value + ". Received type " + ReceivedType(args[2]))
    ensures InvalidArgTypeMessage(args, host).None? <==> InvalidArgTypeMessage(args[..2], host).None?
  {
    assert ArgAt(args[..2], 0) == ArgAt(args, 0);
    assert ArgAt(args[..2], 1) == ArgAt(args, 1);
    var short := InvalidArgTypeMessage(args[..2], host);
    if |args| > 2 && short.Some? {
      var report := ". Received type ";
      assert short.value + (report + ReceivedType(args[2])) == short.value + report + ReceivedType(args[2]);
    }
  }

  /** `invalidArgValue` without a reason, or with an explicit `undefined`
      one, reads as if the reason were "is invalid". */
  lemma InvalidArgValueDefaultReason(name: Arg, value: Arg, host: Host)
    ensures InvalidArgValueMessage([name, value], host) == InvalidArgValueMessage([name, value, Str("is invalid")], host)
    ensures InvalidArgValueMessage([name, value, Undefined], host) == InvalidArgValueMessage([name, value], host)
  {
  }

  /** The received value in an `invalidArgValue` or an invalid-mode message
      is bounded: the message is at most 131 characters longer than its
      fixed text. */
  lemma InvalidValueMessagesAreBounded(mode: Arg, argName: string, value: Arg, host: Host)
    ensures |InvalidPkgModeMessage([mode], host).value| <= 43 + InspectLimit + 3
    ensures |InvalidArgValueMessage([Str(argName), value], host).value| <= 37 + |argName| + InspectLimit + 3
  {
  }

  /** `MODULE_NOT_FOUND` messages are "Cannot find module " followed by
      the single-quoted request, which they determine. */
  lemma MissingCjsNamesRequest(args: seq<Arg>, host: Host)
    ensures Message(Table(ModuleNotFound).builder, args, host) == Some("Cannot find module " + host.quote(ArgAt(args, 0)))
  {
  }

  /** A code's registered constructor builds its message with the code's
      own handler. */
  lemma RegisteredErrorUsesItsHandler(r: Registry, c: Code, args: seq<Arg>, host: Host)
    requires forall d :: d in r.errors && d in r.messages
    requires forall d :: r.errors[d] == ErrorClass(d, Table(d).base, Table(d).flavour)
    requires forall d :: r.messages[d] == Table(d).builder
    requires Table(c).flavour == Plain
    ensures r.Lookup(CodeName(c)) == Some(r.errors[c])
    ensures var e := BuiltinError(r.errors[c], r.messages, args, host);
            (e.Some? <==> Message(Table(c).builder, args, host).Some?) &&
            (e.Some? ==> e.value.base == Table(c).base && Some(e.value.message) == Message(Table(c).builder, args, host))
  {
    CodeNamesRoundTrip(c, CodeName(c));
  }
}
