/** The content script of extension/js/content/console-capture.js: injected into every page, it
    replaces the five console methods by interceptors that record each call in a bounded global
    buffer and then forward it to the original method. */
module ConsoleCapture {
  import opened Wrappers
  import opened Text
  import opened Values
  import Bounded

  const MaxLogs: nat := 500

  datatype Level = Log | Warn | Error | Info | Debug {
    /** The console method an interceptor replaces, and the `level` it records. */
    function Name(): (n: string)
      ensures n in {"log", "warn", "error", "info", "debug"}
    {
      match this
      case Log => "log"
      case Warn => "warn"
      case Error => "error"
      case Info => "info"
      case Debug => "debug"
    }
  }

  lemma LevelNamesDistinct(a: Level, b: Level)
    requires a.Name() == b.Name()
    ensures a == b
  {
  }

  datatype ConsoleEntry = ConsoleEntry(level: string, timestamp: int, message: string)

  /** serialize: the cases in order. `stringify` stands for JSON.stringify on an object or array,
      None when it throws (a cycle, a BigInt). */
  function Serialize(arg: Value, stringify: Value -> Option<string>): (r: string)
    ensures arg.Undefined? ==> r == "undefined"
    ensures arg.Null? ==> r == "null"
    ensures arg.Fun? ==> r == "[Function: " + (if arg.name == "" then "anonymous" else arg.name) + "]"
    ensures arg.Sym? ==> r == "Symbol(" + arg.description + ")"
    ensures arg.ErrorObj? ==> r == arg.name + ": " + arg.message
    ensures arg.Arr? || arg.Obj? ==> r == if stringify(arg).Some? then stringify(arg).value else "[Object]"
    ensures arg.Bool? || arg.Num? || arg.NaN? || arg.Str? ==> r == JsString(arg)
  {
    match arg
    case Undefined => "undefined"
    case Null => "null"
    case Fun(name, _) => "[Function: " + (if name == "" then "anonymous" else name) + "]"
    case Sym(d) => "Symbol(" + d + ")"
    case ErrorObj(name, message) => name + ": " + message
    case Arr(_) => (match stringify(arg) case Some(json) => json case None => "[Object]")
    case Obj(_) => (match stringify(arg) case Some(json) => json case None => "[Object]")
    case _ => JsString(arg)
  }

  /** Arguments that are neither functions, errors nor objects serialize as String() renders them. */
  lemma SerializeAsString(arg: Value, stringify: Value -> Option<string>)
    requires !arg.Fun? && !arg.ErrorObj? && !arg.Arr? && !arg.Obj?
    ensures Serialize(arg, stringify) == JsString(arg)
  {
  }

  /** Errors are tested before the generic object case and always show both parts, where String()
      drops an empty message. */
  lemma ErrorBeforeObject(name: string, stringify: Value -> Option<string>)
    requires name != ""
    ensures Serialize(ErrorObj(name, ""), stringify) == name + ": "
    ensures JsString(ErrorObj(name, "")) == name
  {
  }

  function SerializeAll(args: seq<Value>, stringify: Value -> Option<string>): (r: seq<string>)
    ensures |r| == |args| && forall i :: 0 <= i < |args| ==> r[i] == Serialize(args[i], stringify)
  {
    seq(|args|, i requires 0 <= i < |args| => Serialize(args[i], stringify))
  }

  /** `args.map(serialize).join(' ')`. */
  function MessageOf(args: seq<Value>, stringify: Value -> Option<string>): (r: string)
    ensures args == [] ==> r == ""
    ensures |args| == 1 ==> r == Serialize(args[0], stringify)
    ensures |args| >= 2 ==> StartsWith(r, Serialize(args[0], stringify) + " ")
  {
    var parts := SerializeAll(args, stringify);
    assert |args| >= 2 ==> (parts[0] + [' '] + Join(parts[1..], ' '))[..|parts[0]| + 1] == parts[0] + [' '];
    Join(parts, ' ')
  }

  /** The message keeps every argument apart: when no serialized argument holds a space, splitting
      it at spaces gives the arguments back. */
  lemma MessageSplitsIntoArguments(args: seq<Value>, stringify: Value -> Option<string>)
    requires |args| >= 1
    requires forall i :: 0 <= i < |args| ==> ' ' !in Serialize(args[i], stringify)
    ensures Split(MessageOf(args, stringify), ' ') == SerializeAll(args, stringify)
  {
    SplitJoin(SerializeAll(args, stringify), ' ');
  }

  /** The buffer after one intercepted call at time `now`. */
  function Recorded(buffer: seq<ConsoleEntry>, level: Level, now: int, args: seq<Value>,
                    stringify: Value -> Option<string>): (r: seq<ConsoleEntry>)
    ensures |buffer| <= MaxLogs ==> |r| <= MaxLogs
    ensures |r| >= 1 && r[|r| - 1] == ConsoleEntry(level.Name(), now, MessageOf(args, stringify))
    ensures |buffer| < MaxLogs ==> r == buffer + [r[|r| - 1]]
    ensures |buffer| >= MaxLogs ==> r == buffer[1..] + [r[|r| - 1]]
  {
    Bounded.Push(buffer, ConsoleEntry(level.Name(), now, MessageOf(args, stringify)), MaxLogs)
  }

  /** A full buffer stays full: each further call evicts exactly the oldest entry. */
  lemma {:induction false} FullBufferSlides(buffer: seq<ConsoleEntry>, level: Level, now: int, args: seq<Value>,
                                            stringify: Value -> Option<string>)
    requires |buffer| == MaxLogs
    ensures var r := Recorded(buffer, level, now, args, stringify);
      |r| == MaxLogs && r[..MaxLogs - 1] == buffer[1..]
  {
    var r := Recorded(buffer, level, now, args, stringify);
    assert r == buffer[1..] + [r[|r| - 1]];
  }

  /** The page's `window.__chromiumCliConsoleLogs` (None while absent) and its console. */
  class Page {
    var buffer: Option<seq<ConsoleEntry>>
    /** Whether the console methods are the interceptors. */
    var intercepted: bool
    /** The calls that reached the original console methods, in order. */
    var forwarded: seq<(Level, seq<Value>)>

    ghost predicate Valid()
      reads this
    {
      (buffer.Some? <==> intercepted) && (buffer.Some? ==> |buffer.value| <= MaxLogs)
    }

    constructor ()
      ensures Valid() && buffer == None && !intercepted && forwarded == []
    {
      buffer := None;
      intercepted := false;
      forwarded := [];
    }

    /** Running the content script: once the buffer exists, a second injection does nothing. */
    method Inject()
      requires Valid()
      modifies this
      ensures Valid()
      ensures old(buffer).Some? ==> buffer == old(buffer) && intercepted == old(intercepted)
      ensures old(buffer).None? ==> buffer == Some([]) && intercepted
      ensures forwarded == old(forwarded)
    {
      if buffer.Some? {
        return;
      }
      buffer := Some([]);
      intercepted := true;
    }

    /** A call of `console.<level>(...args)` at time `now`. */
    method Call(level: Level, args: seq<Value>, now: int, stringify: Value -> Option<string>)
      requires Valid()
      modifies this
      ensures Valid()
      ensures intercepted == old(intercepted)
      ensures buffer == if old(buffer).Some? then Some(Recorded(old(buffer).value, level, now, args, stringify))
                        else old(buffer)
      ensures forwarded == old(forwarded) + [(level, args)]
    {
      if intercepted {
        var logs := buffer.value + [ConsoleEntry(level.Name(), now, MessageOf(args, stringify))];
        if |logs| > MaxLogs {
          logs := logs[1..];
        }
        buffer := Some(logs);
      }
      forwarded := forwarded + [(level, args)];
    }
  }
}
