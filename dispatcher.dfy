/**
 * The browser function through which portal pages call application
 * controllers: `dispatch(request)` from JavaScript.
 *
 * The request is one JSON string naming a controller, one of its actions and
 * optional arguments.  `Function` runs a fixed chain of checks, each mapping
 * a malformed request to one error code, normalises the arguments into an
 * array and only then calls the controller.
 *
 * The JSON parser, the controller registry and the controllers themselves are
 * not part of this model: the parser is the parameter `parse`, the registry a
 * map from controller ids to their action names, and a controller's
 * `invokeAction` the parameter `invoke`.
 */
module BrowserDispatch {

  import opened Wrappers

  /** A value as the JSON parser returns it, or as the browser passes it in. */
  datatype Json =
    | Null
    | Str(text: string)
    | Map(fields: map<string, Json>)
    | Arr(items: seq<Json>)
    | Other(literal: string)  // numbers and booleans

  /** The error codes of the error notifications the function returns. */
  datatype ErrorCode = WrongArguments | UnknownController | UnknownAction

  /**
   * What a call returns: an error notification, or the controller's reply;
   * or an exception that escapes the function.
   */
  datatype Outcome = ErrorNotification(code: ErrorCode) | Reply(value: Json) | Raised

  /** The controller registry: each registered controller id with its actions. */
  type Registry = map<string, set<string>>

  /** `JSON.parse(v.toString())`; None where the parser throws. */
  type Parser = Json -> Option<Json>

  /** A controller's `invokeAction(action, arguments)`, given its id. */
  type Invoker = (string, string, Json) -> Json

  /** The request keys for the controller id, the action and the arguments. */
  const ControllerKey: string := "controller"
  const ActionKey: string := "action"
  const ArgumentsKey: string := "args"

  /** `Map.get`: a missing key reads as null. */
  function Get(fields: map<string, Json>, key: string): Json
  {
    if key in fields then fields[key] else Null
  }

  /**
   * The request's arguments as passed to the controller: absent stays null,
   * a map is wrapped as it is, anything else is parsed again and wrapped
   * unless that yields an array.  None where that parse throws.
   */
  function NormaliseArguments(args: Json, parse: Parser): (r: Option<Json>)
    ensures args == Null ==> r == Some(Null)
    ensures r.Some? && args != Null ==> r.value.Arr?
    ensures args.Map? ==> r == Some(Arr([args]))
    ensures r.None? <==> args != Null && !args.Map? && parse(args).None?
    ensures args != Null && !args.Map? && parse(args).Some? ==>
      (parse(args).value.Arr? ==> r == parse(args)) &&
      (!parse(args).value.Arr? ==> r == Some(Arr([parse(args).value])))
  {
    if args == Null then Some(Null)
    else
      var reparsed := if args.Map? then Some(args) else parse(args);
      match reparsed
      case None => None
      case Some(v) => Some(if v.Arr? then v else Arr([v]))
  }

  /**
   * The browser function; it replies exactly when every check passes, with
   * the controller's result for the normalised arguments.  `arguments` is
   * the array the browser passes (None for a null array); its one element
   * must be the request.  The checks run
   * in this order, and the first that fails decides the outcome: the
   * argument array, the request being a map, the controller, the action,
   * the arguments.  A parse exception on the request itself and a
   * controller id or action that is not a string escape as exceptions.
   */
  function Function(arguments: Option<seq<Json>>, registry: Registry, parse: Parser, invoke: Invoker): (r: Outcome)
    ensures !WellFormedCall(arguments) ==> r == ErrorNotification(WrongArguments)
    ensures r.Reply? ==> Accepted(arguments, registry, parse)
    ensures Accepted(arguments, registry, parse) ==>
      r == Reply(invoke(ControllerOf(arguments, parse), ActionOf(arguments, parse),
                        ArgumentsOf(arguments, parse)))
  {
    if arguments.None? || |arguments.value| != 1 || arguments.value[0] == Null then
      ErrorNotification(WrongArguments)
    else
      match parse(arguments.value[0])
      case None => Raised
      case Some(request) =>
        if !request.Map? then ErrorNotification(WrongArguments)
        else
          var event := request.fields;
          var controllerId := Get(event, ControllerKey);
          if !(controllerId.Null? || controllerId.Str?) then Raised
          else if controllerId.Null? || controllerId.text !in registry then ErrorNotification(UnknownController)
          else
            var action := Get(event, ActionKey);
            if !(action.Null? || action.Str?) then Raised
            else if action.Null? || action.text !in registry[controllerId.text] then ErrorNotification(UnknownAction)
            else
              match NormaliseArguments(Get(event, ArgumentsKey), parse)
              case None => ErrorNotification(WrongArguments)
              // dispatch: the controller's action runs synchronously and its result is returned
              case Some(args) => Reply(invoke(controllerId.text, action.text, args))
  }

  // The checks one by one, stated independently of `Function`.

  /** The browser passed exactly one, non-null, argument. */
  predicate WellFormedCall(arguments: Option<seq<Json>>)
  {
    arguments.Some? && |arguments.value| == 1 && arguments.value[0] != Null
  }

  /** The request parses to a JSON map; its fields. */
  function Request(arguments: Option<seq<Json>>, parse: Parser): Option<map<string, Json>>
  {
    if WellFormedCall(arguments) && parse(arguments.value[0]).Some? && parse(arguments.value[0]).value.Map?
    then Some(parse(arguments.value[0]).value.fields)
    else None
  }

  /** The request names a registered controller and one of that controller's actions, and its arguments parse. */
  predicate Accepted(arguments: Option<seq<Json>>, registry: Registry, parse: Parser)
  {
    && Request(arguments, parse).Some?
    && var event := Request(arguments, parse).value;
    && Get(event, ControllerKey).Str?
    && Get(event, ControllerKey).text in registry
    && Get(event, ActionKey).Str?
    && Get(event, ActionKey).text in registry[Get(event, ControllerKey).text]
    && NormaliseArguments(Get(event, ArgumentsKey), parse).Some?
  }

  function ControllerOf(arguments: Option<seq<Json>>, parse: Parser): string
    requires Request(arguments, parse).Some?
  {
    var c := Get(Request(arguments, parse).value, ControllerKey);
    if c.Str? then c.text else ""
  }

  function ActionOf(arguments: Option<seq<Json>>, parse: Parser): string
    requires Request(arguments, parse).Some?
  {
    var a := Get(Request(arguments, parse).value, ActionKey);
    if a.Str? then a.text else ""
  }

  function ArgumentsOf(arguments: Option<seq<Json>>, parse: Parser): Json
    requires Request(arguments, parse).Some?
  {
    var n := NormaliseArguments(Get(Request(arguments, parse).value, ArgumentsKey), parse);
    if n.Some? then n.value else Null
  }

  /** An outcome other than a reply never depends on the controllers: nothing was dispatched. */
  lemma ErrorsDoNotDispatch(arguments: Option<seq<Json>>, registry: Registry, parse: Parser, invoke: Invoker, other: Invoker)
    requires !Function(arguments, registry, parse, invoke).Reply?
    ensures Function(arguments, registry, parse, other) == Function(arguments, registry, parse, invoke)
  {
  }

  /**
   * The first failing check decides the error: a well-formed call whose
   * request is not a map is `WRONG_ARGUMENTS` whatever else it holds; a map
   * with no registered controller is `UNKNOWN_CONTROLLER` whatever its action
   * and arguments; a known controller without the named action is
   * `UNKNOWN_ACTION` whatever the arguments; arguments that do not parse are
   * `WRONG_ARGUMENTS`.
   */
  lemma ChecksInOrder(arguments: Option<seq<Json>>, registry: Registry, parse: Parser, invoke: Invoker)
    requires WellFormedCall(arguments) && parse(arguments.value[0]).Some?
    ensures var r := Function(arguments, registry, parse, invoke);
      && (Request(arguments, parse).None? ==> r == ErrorNotification(WrongArguments))
      && (Request(arguments, parse).Some? ==>
            var event := Request(arguments, parse).value;
            var c := Get(event, ControllerKey);
            var a := Get(event, ActionKey);
            && ((c.Null? || (c.Str? && c.text !in registry)) ==> r == ErrorNotification(UnknownController))
            && (c.Str? && c.text in registry && (a.Null? || (a.Str? && a.text !in registry[c.text])) ==>
                  r == ErrorNotification(UnknownAction))
            && (c.Str? && c.text in registry && a.Str? && a.text in registry[c.text] &&
                NormaliseArguments(Get(event, ArgumentsKey), parse).None? ==>
                  r == ErrorNotification(WrongArguments)))
  {
  }

  /**
   * What escapes as an exception: a request the parser rejects (its parse is
   * outside the handler that catches the arguments' parse errors), and a
   * controller id or action that is present but not a string.
   */
  lemma ExceptionsEscape(arguments: Option<seq<Json>>, registry: Registry, parse: Parser, invoke: Invoker)
    requires WellFormedCall(arguments)
    ensures var r := Function(arguments, registry, parse, invoke);
      && (parse(arguments.value[0]).None? ==> r == Raised)
      && (Request(arguments, parse).Some? ==>
            var event := Request(arguments, parse).value;
            var c := Get(event, ControllerKey);
            var a := Get(event, ActionKey);
            && (!c.Null? && !c.Str? ==> r == Raised)
            && (c.Str? && c.text in registry && !a.Null? && !a.Str? ==> r == Raised))
  {
  }
}
