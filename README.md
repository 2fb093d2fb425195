# esm loader core, modelled in Dafny

This project models three pieces of the `esm` module loader:

- **The top-level declaration analyzer** is the `parseTopLevel` plugin of the acorn parser. It walks a program's top-level statements in order. While doing so it records every declared name: variables, classes, functions and import locals. It also records the function names and the imported names separately. In module mode it rejects a variable named like an earlier function, and a function named like any earlier declaration. In any mode it rejects an import local that is already imported. It computes the point where bootstrap code may be inserted: after the leading run of string-literal directives. Finally it attaches a `top` record to the Program node.
- **The error taxonomy** is `errors.js`. It has twelve error codes. Five are plain errors, which are instances of `Error` or `SyntaxError`. Seven are node-style errors: instances of a subclass whose `code` and `name` are accessors until assigned. Each code has a message builder, and `truncInspect` bounds the inspected values that messages include.
- **The built-in bridge** is `builtin-entries.js`. For every built-in module id it installs a deferred builder. The builder corrects the shape of the `util` and `vm` exports and wraps the exports in a fresh module and entry. If the exports' prototype `constructor` pointed back at them, it now points at the proxied exports. The builder then marks the entry as a loaded built-in.

Files:

- `wrappers.dfy`: `Option` and `Result`.
- `top_level.dfy`: module `TopLevel`. It holds the analysis as a pure fold (`Step`, `Analyze`), an independent reference description (`Offender`, `DeclaredNames`, …), lemmas relating the two, and the imperative `ParseTopLevel` method. That method updates a `ProgramNode` in place and is proved equal to the fold.
- `errors.js` is modelled by `errors.dfy`, module `Errors`:
  - the code table;
  - the message builders, which return `Option<string>`, where `None` is the `TypeError` the host throws when a symbol is concatenated to a string;
  - the `Registry` class filled by `init`;
  - the `NodeError` class.
- `objects.dfy`: module `Objects`. It models JavaScript values and heap objects with ordered own properties, plus the `Module` and `Entry` records the bridge writes to. Its `Value` is separate from `Errors.Arg`: the message builders observe a value only through `typeof` and the host's string conversion, while the bridge needs heap objects with identity and ordered own properties. Keeping them apart leaves the error taxonomy free of the heap model.
- `builtin_entries.dfy`: module `BuiltinEntries`. It holds the `util` and `vm` export correction, the two proxy handlers, the per-id builder, and the `BuiltinTable` class of deferred entries.

The following are uninterpreted parameters of the model:

- `getIdentifiersFromPattern` is `idsOf`.
- `inspect`, `getModuleURL`, `toStringLiteral` and the string form of numbers and objects are the fields of `Errors.Host`.
- `isOwnProxy`, `isNamespaceObject`, `toNamespaceObject` and `unwrapProxy` are the fields of `BuiltinEntries.ProxyOps`.
- The value of `unwrapProxy(realRequire(id))` is the `required` parameter.

## Model

| member | source | states |
|---|---|---|
| TopLevel.Redeclaration.Message | src/acorn/parser/top-level.js:124-130 | The message is "Identifier '" + name + "' has already been declared", and its length is the name's length plus 39. |
| TopLevel.MessageNamesIdentifier | src/acorn/parser/top-level.js:124-130 | The redeclared name can be read back from the message. |
| TopLevel.IsDirective | src/acorn/parser/top-level.js:47-49 | The directive test: an expression statement whose expression is a string literal. What a run of directives means is stated by `PrologueLength`, and that a directive declares nothing by `DirectiveDeclaresNothing`. |
| TopLevel.Declaration | src/acorn/parser/top-level.js:59-63 | Every node other than an export wrapper stands for itself. Only an export wrapper without a declaration has the empty type. |
| TopLevel.FirstIn | src/acorn/parser/top-level.js:65-79 | A reported variable identifier belongs to the declaration and is named like a function. None is reported exactly when no identifier of the declaration has such a name. |
| TopLevel.FirstInIsFirst | src/acorn/parser/top-level.js:66-78 | The reported identifier is the first one in declaration order that is named like a function: every identifier before it has a non-function name. |
| TopLevel.FirstRepeated | src/acorn/parser/top-level.js:100-110 | A reported import local belongs to the import. Which local is reported, and when none is, is stated by `FirstRepeatedIsFirst` and `FirstRepeatedMeaning`. |
| TopLevel.FirstRepeatedMeaning | src/acorn/parser/top-level.js:100-110 | An import raises nothing exactly when every local is new: not imported before, and not repeated earlier in the same import. |
| TopLevel.FirstRepeatedIsFirst | src/acorn/parser/top-level.js:101-106 | The reported local is named like an earlier import or an earlier local of the same import, and it is the first such local in specifier order: every local before it is new. |
| TopLevel.Step | src/acorn/parser/top-level.js:43-111 | In one statement's step, only the directive check moves the insertion point, and it is frozen once `inited`. The three tables only grow, and the function and imported names stay inside the identifiers. Outside module mode only an import can raise. A class never raises. |
| TopLevel.Prologue | src/acorn/parser/top-level.js:43-55 | One step of the directive check. It leaves the name tables alone, and once `inited` it changes nothing. `inited` becomes set exactly at a non-directive. The insertion point moves only for a directive before `inited`, to that directive's end with prefix ";". |
| TopLevel.DirectiveDeclaresNothing | src/acorn/parser/top-level.js:57-111 | For a directive the declaration checks neither raise nor change a table. |
| TopLevel.Declare | src/acorn/parser/top-level.js:57-111 | The declaration part of a step changes only the three name tables: the insertion point and `inited` are left as the directive check set them. |
| TopLevel.Analyze | src/acorn/parser/top-level.js:37-114 | Analysis over the statements in order stops at the first raising statement, which lies within the program. |
| TopLevel.RaisedIsFinal | src/acorn/parser/top-level.js:37-114 | Once a prefix of the program raises, the whole program raises the same error at the same statement: detection is as-you-go. |
| TopLevel.StepAgreesWithOffender | src/acorn/parser/top-level.js:65-111 | One step fails exactly at the reference offender, reporting its name and start; otherwise the tables are the names declared so far. |
| TopLevel.AnalyzeMatchesReference | src/acorn/parser/top-level.js:37-114 | Analysis raises at the first statement with an offender, reporting that offender's name and position. When analysis completes, no statement has an offender. The identifiers are then all names declared by var, class, function and import, the function names are the function names, and the imported names are the import locals. |
| TopLevel.RaisesIffSomeOffender | src/acorn/parser/top-level.js:65-111 | Analysis raises if and only if some statement conflicts with the statements before it. |
| TopLevel.ScriptModeRaisesOnlyAtImports | src/acorn/parser/top-level.js:72-73 | Outside module mode the only statement that can raise is an import. |
| TopLevel.TablesNested | src/acorn/parser/top-level.js:97-109 | Every function name and every imported name is also an identifier. |
| TopLevel.PrologueLength | src/acorn/parser/top-level.js:43-55 | The directive prologue is the leading run of directives: every statement in it is a directive, and the statement after it is not. |
| TopLevel.PrologueUnique | src/acorn/parser/top-level.js:43-55 | Any length with that property is the prologue's length. |
| TopLevel.InsertionIgnoresDeclarations | src/acorn/parser/top-level.js:43-55 | When analysis completes, the insertion point and `inited` are those of the directive check alone, whatever the declarations are. |
| TopLevel.PrologueFoldFollowsPrologue | src/acorn/parser/top-level.js:43-55 | The directive check alone leaves `inited` set exactly when a non-directive follows the prologue. The insertion index is the end of the prologue's last directive, or the start when the prologue is empty. |
| TopLevel.InsertionPointFollowsPrologue | src/acorn/parser/top-level.js:43-55 | With an empty prologue, the insertion index is the node's start and the prefix is "". Otherwise it is the end of the prologue's last directive, and the prefix is ";". |
| TopLevel.PrologueExample | src/acorn/parser/top-level.js:43-55 | For `"use strict"; "use asm"; let x = 1;` the insertion point is the end of the second directive, with prefix ";", and `x` is declared. |
| TopLevel.FunctionThenImportIsAccepted | src/acorn/parser/top-level.js:86-110 | In module mode, `function f(){}` followed by `import { f }` does not raise. |
| TopLevel.ImportThenFunctionRaises | src/acorn/parser/top-level.js:86-110 | In module mode, `import { f }` followed by `function f(){}` raises at the function's identifier. |
| TopLevel.DeclareVariables | src/acorn/parser/top-level.js:65-79 | The nested declarator and identifier loops raise at the first identifier named like a function (module mode only). Otherwise they add all the declaration's names to the identifiers. |
| TopLevel.DeclareStatement | src/acorn/parser/top-level.js:57-111 | The declaration branches of the loop body compute exactly the declaration part of the step. |
| TopLevel.DeclareImports | src/acorn/parser/top-level.js:100-110 | The specifier loop raises at the first already-imported local. Otherwise it adds every local to the identifiers and to the imported names. |
| TopLevel.ParseTopLevel | src/acorn/parser/top-level.js:15-122 | The node gets a body when it has none. Each analysed statement is appended to the body. On completion the node gets a `top` record with the final tables, insertion point and first top-level await. On a redeclaration the method returns that error, the body ends before the raising statement, and `top` is untouched. |
| Errors.ParseCode | src/errors.js:14-26 | A recognised table key is the name of the code it stands for. |
| Errors.CodeNamesRoundTrip | src/errors.js:14-26 | Codes and table keys correspond one to one in both directions. |
| Errors.Table | src/errors.js:14-26 | The registration of each code. The two export errors have base `SyntaxError` and the argument-type error `TypeError`; every other code has `Error`. Flavours and handlers are stated by `PlainCodes`, `NodeStyleCodes` and `BuildersAreDistinct`. |
| Errors.AllCodesListed | src/errors.js:14-26 | Every code is registered. |
| Errors.InCodesOf | src/errors.js:14-26 | A code is in a flavour's set exactly when its registration has that flavour. |
| Errors.PlainCodes | src/errors.js:14-18 | The plain codes are exactly the five `addError` codes. |
| Errors.NodeStyleCodes | src/errors.js:20-26 | The node-style codes are exactly the seven `addNodeError` codes. |
| Errors.TaxonomyShape | src/errors.js:14-26 | There are twelve codes: five plain and seven node-style. The two sets are disjoint and together cover every code. |
| Errors.BuildersAreDistinct | src/errors.js:14-26 | No two codes share a message handler. |
| Errors.Text | src/errors.js:93-157 | Concatenating a value fails exactly for a symbol, and a string stands for itself. |
| Errors.ReceivedType | src/errors.js:110-112 | The reported type is "null" exactly for `null`, and `typeof` otherwise. |
| Errors.Truncate | src/errors.js:85-91 | A text of at most 128 characters is kept. A longer one becomes its first 128 characters followed by "...", so the result has at most 131 characters. |
| Errors.TruncInspect | src/errors.js:85-91 | The inspected text is at most 131 characters. |
| Errors.TruncateIdempotent | src/errors.js:85-91 | Truncating twice is truncating once. |
| Errors.ExportMissingMessage | src/errors.js:93-98 | Throws exactly when the export name is a symbol. The message starts with "ES Module " and the quoted URL of the request, and ends with "export named '", the name and "'". |
| Errors.ExportStarConflictMessage | src/errors.js:100-105 | Throws exactly when the export name is a symbol. The message starts with "ES Module " and the quoted URL of the request, and ends with "for name '", the name and "'". |
| Errors.InvalidArgTypeMessage | src/errors.js:107-115 | Throws exactly when the argument name or the expected text is a symbol. The message starts with "The '", the argument name and "' argument must be ". With a third argument it ends with ". Received type " and that argument's type word. |
| Errors.InvalidArgValueMessage | src/errors.js:117-120 | Throws exactly when the argument name or a given reason is a symbol. The message starts with "The argument '" and the name, and ends with ". Received " and the truncated inspection of the value. |
| Errors.InvalidExtensionMessage | src/errors.js:122-127 | Never throws. The message starts with "ES Module " and the quoted URL of the request, and ends with " cannot be loaded from .mjs files". |
| Errors.InvalidPkgModeMessage | src/errors.js:129-131 | Never throws. The message starts with "The ESM option 'mode' is invalid" and ends with the truncated inspection of the mode. |
| Errors.InvalidProtocolMessage | src/errors.js:133-136 | Throws exactly when the protocol or the expected protocol is a symbol. The message starts with "Protocol '", the protocol and "' not supported", and ends with "Expected '", the expected protocol and "'". |
| Errors.MissingCjsMessage | src/errors.js:138-140 | Never throws. The message starts with "Cannot find module " and ends with the quoted request. |
| Errors.ModuleResolutionLegacyMessage | src/errors.js:142-145 | Throws exactly when one of the three arguments is a symbol. The message starts with the id and " not found by import in ", and ends with "would have found it at " and the found path. |
| Errors.RequireEsmMessage | src/errors.js:147-149 | Never throws. The message starts with "Must use import to load ES Module: " and ends with the URL of the request. |
| Errors.UnknownFileExtensionMessage | src/errors.js:151-153 | Throws exactly when the file name is a symbol. The message starts with "Unknown file extension: " and ends with the file name. |
| Errors.UnknownPkgOptionMessage | src/errors.js:155-157 | Throws exactly when the option name is a symbol. The message starts with "Unknown ESM option: " and ends with the option name. |
| Errors.Message | src/errors.js:38-53 | `messages[code](...args)`: runs the registered handler. A handler that converts no argument with `+` never throws; when each handler throws is stated by `MessageThrowsOnlyOnSymbols`. |
| Errors.MessageThrowsOnlyOnSymbols | src/errors.js:93-157 | A builder throws if and only if a position it concatenates holds a symbol. For `invalidArgValue`, the reason counts only when it is not undefined. |
| Errors.InvalidArgTypeReportsThirdArgument | src/errors.js:107-115 | ". Received type …" is appended exactly when more than two arguments are passed, even an explicit undefined; otherwise the message is the two-argument one. |
| Errors.InvalidArgValueDefaultReason | src/errors.js:117-120 | A missing or undefined reason reads as "is invalid". |
| Errors.InvalidValueMessagesAreBounded | src/errors.js:117-131 | Invalid-value and invalid-mode messages exceed their fixed text by at most 131 characters of inspected value. |
| Errors.MissingCjsNamesRequest | src/errors.js:138-140 | A `MODULE_NOT_FOUND` message is exactly "Cannot find module " followed by the quoted request. So it never throws. |
| Errors.Registry.constructor | src/errors.js:6-36 | After `init`, both tables hold every code, with the base, flavour and handler of that code's registration. |
| Errors.Registry.Lookup | src/errors.js:11-29 | `errors[key]` is the class registered under the code the key names. It is absent for any other key. |
| Errors.Registry.AddError | src/errors.js:28-31 | Registers a plain class and its handler under the code; the other entries are unchanged. |
| Errors.Registry.AddNodeError | src/errors.js:33-36 | Registers a node-style class and its handler under the code; the other entries are unchanged. |
| Errors.RegisteredAgreesWithTable | src/errors.js:14-26 | The tables written by the twelve calls agree with the registration table code by code. |
| Errors.BuiltinError | src/errors.js:38-42 | A plain error is an instance of its base class with the registered handler's message. It throws exactly when the handler throws. |
| Errors.RegisteredErrorUsesItsHandler | src/errors.js:28-42 | Looking a plain code up by its key yields its class, which builds its message with that code's own handler and base. |
| Errors.NodeError.constructor | src/errors.js:44-53 | Only `MODULE_NOT_FOUND` assigns `code` and `name` in the constructor: to the code and to the base name. Any other code leaves both as accessors. |
| Errors.NodeError.CodeProperty | src/errors.js:55-57 | Reading `code` gives the own value once assigned, and otherwise the registered code. |
| Errors.NodeError.NameProperty | src/errors.js:69-71 | Reading `name` gives the own value once assigned, and otherwise "Base [CODE]". |
| Errors.NodeError.EnumerableOwnKeys | src/errors.js:59-81 | `code` or `name` is an enumerable own key exactly when it has been assigned. |
| Errors.NodeError.SetCode | src/errors.js:59-67 | Assigning `code` makes it read back as the assigned value and leaves `name` alone. |
| Errors.NodeError.SetName | src/errors.js:73-81 | Assigning `name` makes it read back as the assigned value and leaves `code` alone. |
| Errors.NewNodeError | src/errors.js:44-53 | Constructing a node-style error throws exactly when the handler throws. Otherwise the new error carries the handler's message, code and base. `MODULE_NOT_FOUND` reads back its plain code and base name. Any other code reads as "Base [CODE]", with no enumerable own keys. |
| BuiltinEntries.Filter | src/builtin-entries.js:27-32 | The kept names are exactly the names not skipped, and no more than the source's names. |
| BuiltinEntries.CopyKeys | src/builtin-entries.js:27-32 | The properties the copy loops of `createUtilExports` and `createVMExports` (lines 81-85) produce. Their meaning is stated by `CopyKeysMeaning` and `CopyExceptShape`, and the loop itself is proved equal to it by `CopyInto`. |
| BuiltinEntries.CopyKeysMeaning | src/builtin-entries.js:27-32 | Copying distinct names gives a well-formed object. Its keys are the names not skipped, in their order, each with the source's value. |
| BuiltinEntries.CopyExceptShape | src/builtin-entries.js:77-88 | A copy that skips some keys has every other source key, in the source's order and with the source's value; a skipped key reads as undefined. |
| BuiltinEntries.CopyInto | src/builtin-entries.js:27-32 | The copy loop leaves the target holding exactly the copy of the source's keys that are not skipped. |
| BuiltinEntries.CreateVMExports | src/builtin-entries.js:77-88 | The result is a fresh plain object holding the source's own properties except `Module`. |
| BuiltinEntries.DefineIfAbsent | src/builtin-entries.js:65-72 | The custom-inspect key is defined as the given value only when absent. An existing value is kept, and other keys are untouched. |
| BuiltinEntries.UtilPropsShape | src/builtin-entries.js:23-75 | `inspect` is the wrapper of the source's `inspect`. `types` is present exactly when supplied. The custom key is the source's value if present, and `true` otherwise. Every other key is the source's. |
| BuiltinEntries.AssignProps | src/builtin-entries.js:51 | `assign` from a non-object gives no properties. |
| BuiltinEntries.NewAssigned | src/builtin-entries.js:51 | `assign(new Object, v)` is a fresh plain object with a copy of `v`'s own properties. |
| Objects.Truthy | src/builtin-entries.js:50 | The `if (sourceTypes)` test: objects and proxies are always truthy, and `undefined` and `null` never are. |
| BuiltinEntries.AttachTypes | src/builtin-entries.js:50-58 | `exported.types` becomes a fresh copy of the source's `types`, whose `isProxy` is the wrapper of the source's `isProxy`. |
| BuiltinEntries.CreateUtilExports | src/builtin-entries.js:23-75 | The result is a fresh object shaped as `UtilProps`. It gets a new `types` object exactly when the source's `types` is truthy. |
| BuiltinEntries.First | src/builtin-entries.js:36 | Destructuring reads the first argument, or undefined when there is none. |
| BuiltinEntries.InspectArguments | src/builtin-entries.js:34-46 | An own proxy in first place is replaced by its namespace object when it is one, and by its unwrapped target otherwise. Every other argument is unchanged. |
| BuiltinEntries.Invoke | src/builtin-entries.js:34-57 | A call of any value but the bridge's wrappers is left to the host. The two `apply` traps are stated by `InspectWrapperForwards` and `IsProxyWrapperHidesOwnProxies`. |
| BuiltinEntries.InspectWrapperForwards | src/builtin-entries.js:34-46 | The `inspect` wrapper passes calls through unchanged unless the first argument is an own proxy. In that case it inspects what the proxy stands for. |
| BuiltinEntries.IsProxyWrapperHidesOwnProxies | src/builtin-entries.js:52-57 | The `isProxy` wrapper answers false for own proxies and otherwise returns what the original returns. |
| BuiltinEntries.CorrectionFor | src/builtin-entries.js:94-101 | "module" uses the Module class, "util" is corrected, and "vm" is corrected exactly when it has a `Module` key. Every other id is used as required. |
| BuiltinEntries.ShapeExports | src/builtin-entries.js:92-101 | Under each correction, the exports are the Module class, the required value, a fresh vm copy without `Module`, or a fresh util object of the `UtilProps` shape. |
| BuiltinEntries.RedirectBackReference | src/builtin-entries.js:113-120 | A function whose prototype's own `constructor` is itself gets that back-reference pointed at the proxy. Nothing else is touched. |
| BuiltinEntries.Publish | src/builtin-entries.js:103-127 | Publishing creates a fresh module and entry. The module is loaded and its exports are the entry's proxy. The back-reference is redirected. The entry is a loaded built-in with the id. |
| Objects.Entry.MarkLoaded | src/builtin-entries.js:126 | `entry.loaded()` sets the entry's state to loaded and keeps its id and built-in flag. |
| BuiltinEntries.BuildEntry | src/builtin-entries.js:91-128 | Builds the entry: a loaded built-in with the id, whose module exports its proxy. The back-reference of the Module class or of the required exports is redirected to the proxy exactly when it existed; otherwise no prototype changes. The prototype of the value the entry does not stand for is never touched. |
| BuiltinEntries.BuiltinTable.constructor | src/builtin-entries.js:90-91 | Exactly the built-in ids get a deferred entry, and none is built yet. |
| BuiltinEntries.BuiltinTable.Get | src/builtin-entries.js:90-129 | Ids that are not built-in have no entry. The first read of an id builds a fresh loaded built-in entry for it and keeps it. Later reads return the kept entry and touch no prototype. A build touches only the prototype of the value the entry stands for. |

## Left out

- I/O and host code: `realRequire`, `unwrapProxy`, `isOwnProxy`, `isNamespaceObject`, `toNamespaceObject`, `inspect`, `getModuleURL`, `toStringLiteral` and `getIdentifiersFromPattern` are parameters, not models.
- `parseStatement`, `next`, `finishNode` and the token stream are outside the model. The statements the parser yields are the `stmts` parameter, and `firstAwaitOutsideFunction` is a parameter copied into `top`.
- `constructStackless`: a redeclaration is returned as a `Redeclaration(pos, name)` value. The stack-less `SyntaxError` object built from it, and the parser passed to it, are not modelled.
- The `shared.inited` caching of the plugin and of the error table, and the plugin's `enable` hook.
- Identifier tables are sets, so the key order of the `identifiers` and `importedBindings` objects is not modelled.
- Property descriptors (enumerable, writable, configurable), prototype chains, getters and symbol-keyed `keysAll` order beyond insertion order. `copyProperty` is modelled as a value copy, and `Reflect.defineProperty` of the custom-inspect key as a plain assignment.
- `setDeferred` is modelled as a getter that builds once and keeps its entry (`BuiltinTable.Get`). The replacement of the accessor by a data property is not modelled.
- `Entry.get(mod)` is modelled as creating a fresh entry (the module is always new there). `Entry.set(exported, entry)`, the map from the proxy back to its entry, is left out. `proxyExports(entry)` is the tag `ExportsProxy(entry)`, and the behaviour of the proxy itself is not part of this model.
- The `Module` constructor's initial `exports` object is not modelled. `Entry.get(mod)` (src/builtin-entries.js:104) runs while the module still holds it, before the builder assigns `mod.exports` (line 107). `Entry.get` is abstract here (a fresh entry), so what it might read from those initial exports is not captured.
- Numbers: `Objects.Value` numbers are integers, and `Errors.Arg` numbers and bigints are natural-number identities whose text comes from `Host.show`. NaN, negative zero and floating point are not modelled, and the string form of numbers, bigints, objects and functions comes from the host.
- BuiltinEntries.Invoke: the `thisArg` that the `apply` traps forward with `Reflect.apply` (src/builtin-entries.js:44, 55) is not modelled. The wrapped function is applied to the arguments alone.
- Errors.Truncate: lengths and the 128-character cut count Unicode scalar values (`string` is a sequence of `char`). The source counts UTF-16 code units, so a text with characters outside the Basic Multilingual Plane is cut later here than in the source, and a cut that splits a surrogate pair cannot be represented.
- Errors.TruncInspect: the bound of 131 characters counts Unicode scalar values, not UTF-16 code units, for the same reason as `Errors.Truncate`.
- Property reads and `has` on the bridge's own proxies: `Objects.GetProp`, `Objects.HasOwn` and `BuiltinEntries.AssignProps` treat a `Wrapped` or `ExportsProxy` value as having no own properties. In JavaScript these proxies trap only `apply`, so reads and `has` pass through to the target. This does not arise for the values the bridge reads from, such as the `types` object of `util`, which is a plain object.
- String conversion of objects through `toString`/`valueOf`, which could throw, is not modelled: objects convert through `Host.show`.
- BuiltinEntries.BuildEntry: for the corrected `util` and `vm` exports it states only that the proxied object is fresh and plain; their contents are stated by `ShapeExports`, which it calls.
- BuiltinEntries.ShapeExports: for `util` it states that the object has the `UtilProps` shape for some `types` value. Which `types` object it is, is stated by `CreateUtilExports`.
- Some message builders convert an argument with `+`, and for a symbol argument the host throws a `TypeError`. So building an error can throw when a symbol is concatenated, and the builders model that error path as `None`.
- The analyzer checks import locals only against earlier imports. ECMAScript modules make a function followed by an import of the same name an early error. This analyzer does not report it: in module mode `function f(){}` followed by `import { f } from "x"` is accepted (`TopLevel.FunctionThenImportIsAccepted`).
